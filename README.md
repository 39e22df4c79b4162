# openai-api: the quota, credential and analytics core in Dafny

The service is an OpenAI proxy. Each user holds a hashed API key, a
`request_limit` counter, a `fine_tune_limit` counter, a permission map and a
privilege. The `/v1` handlers work in three steps:

- They authenticate the caller by the `Authorization: Bearer <key>` header.
- They refuse an exhausted quota (429) or a false permission flag (403).
  A permission map that lacks the flag raises an uncaught `KeyError` (500).
- After a successful upstream call, they debit (or, for a cancelled
  fine-tune, credit) one counter.

Administrators log in for JWT session tokens and can add, update, read and
delete users. The administration panel charts per-user usage from an
event log grouped into calendar buckets.

The model is split into one module per source file:

| module | file | models |
|---|---|---|
| `Calendar` | calendar.dfy | Naive timestamps, calendar parts, `$dateToParts` truncation, `relativedelta` month stepping and the months component of a difference |
| `Schema` | schema.dfy | `PERMISSION_KEYS_LIST`, `PRIVILEGE_LIST`, the `User`/`UserUpdate` validators and defaults |
| `DatabaseUtils` | database_utils.dfy | Digest check, `mci-` key format, salt, JWT payloads |
| `Database` | database_service.dfy | The `DatabaseService` class over a user table, an admin table and a usage log, plus the `get_ts_dates` aggregation |
| `Authentication` | authentication_service.dfy | Header parsing, API-key authentication, the init token, the expiry decision, token issuing |
| `App` | app.dfy | The `/v1` admission pipeline (`Handle`, run on the store by `Serve`) and the admin handlers |
| `AdminPanel` | app_admin.dfy | Password policy, `get_slice`, `generate_day_from_to`, `generate_x_data`, `generate_y_data`, `convert_data` |

Modelling choices:

- **Collections.** MongoDB collections are sequences in insertion order.
  `find_one`/`update_one`/`delete_one` act on the first match (`FirstMatch`).
- **Digest.** The SHA-256 digest is an arbitrary function `Hasher`. Nothing
  assumes it is injective.
- **JWT.** A JWT is a symbolic triple of payload, key and algorithm. The
  signature check of `jwt.decode` enters `validate_token` as its outcome: the
  signed payload, or `None`. python-jose's own `exp` check, against the clock
  truncated to whole seconds, is modelled (`Authentication.JoseDecode`).
- **Calendar.** `$dateToParts` and `relativedelta` are library code. The model
  computes them on the proleptic Gregorian calendar over whole seconds. The
  whole-month count of `relativedelta(to, from)` is the naive year-month
  difference corrected once; `Calendar.TotalMonthsBracket` shows that the
  library's correction loop never runs a second time.
- **Inputs.** The clock (`now`, in whole seconds; the session check reads it
  in microseconds, `clock`, as `datetime.now()` does), the `API_SALT` environment
  value and the random draws of `gen_random_string` are parameters.

## Model

| member | source | states |
|---|---|---|
| `Schema.PermissionsCheck` | schema/schema.py:60-64 | Accepts a permission map iff its key set is exactly the four permission names, returning it unchanged; otherwise 422 |
| `Schema.PrivilegeCheck` | schema/schema.py:66-70 | Accepts a privilege iff it is owner, admin or user; otherwise 422 |
| `Schema.ValidateUser` | schema/schema.py:47-70 | A `User` body is accepted iff supplied permissions and privilege pass their validators. Absent fields take 1000, 2, "user" and the default map, and the other fields are kept as given |
| `Schema.ValidateUserUpdate` | schema/schema.py:74-93 | Only `user_id` is required. The update is accepted iff supplied permissions and privilege pass the same checks, and the supplied fields are kept as given |
| `Schema.DefaultsAreValid` | schema/schema.py:52-58 | The defaults would pass the validators they bypass; the default map grants everything except `fine_tune` |
| `Schema.PermissionsCheckIgnoresFlags` | schema/schema.py:62-64 | Two maps with the same keys are accepted or rejected together, whatever their flags |
| `Schema.PermissionsCheckRejectsWrongKeys` | schema/schema.py:62-64 | A missing permission name or an extra key is rejected |
| `Schema.PermissionsModelShapeRejected` | schema/schema.py:38-43 | A map with the `Permissions` model's keys (`fine_tunes`) fails the `User` check, which expects `fine_tune` |
| `DatabaseUtils.VerifyHashedKey` | utils/database_utils.py:21-23 | Holds iff the digest of the key equals the stored digest |
| `DatabaseUtils.VerifyHashedKeyRoundTrip` | utils/database_utils.py:17-23 | A key always verifies against its own digest |
| `DatabaseUtils.GenRandomString` | utils/database_utils.py:11-15 | 5 to 10 characters, each a lower-case ASCII letter |
| `DatabaseUtils.ApiSalt` | utils/database_utils.py:28-31 | A set, non-empty `API_SALT` is the salt; otherwise the salt is a random lower-case string of 5 to 10 letters |
| `DatabaseUtils.GenerateApiKey` | utils/database_utils.py:25-38 | The key is `mci-` followed by the digest of the user id with the salt appended |
| `DatabaseUtils.GenerateApiKeyDeterministic` | utils/database_utils.py:28-35 | With `API_SALT` set, the key is `mci-` + hash(user id + salt) whatever the random draws |
| `DatabaseUtils.TokenPayload` | utils/database_utils.py:46-54 | Payload subject is the subject; expiry is now + the explicit lifetime, else now + 60 × the configured minutes |
| `DatabaseUtils.CreateAccessToken` | utils/database_utils.py:40-54 | Signed with the given access key and algorithm over that payload |
| `DatabaseUtils.CreateRefreshToken` | utils/database_utils.py:56-70 | Signed with the given refresh key and algorithm over that payload |
| `DatabaseUtils.AccessAndRefreshAgree` | utils/database_utils.py:40-70 | Given the same key and lifetime, the two builders produce the same token |
| `Database.WithLimit` | database_services/database_service.py:132-137 | Sets one counter and leaves the other counter, the identity, the permissions, the password and the key digest unchanged |
| `Database.FirstMatch` | database_services/database_service.py:77-80 | The index of the first document matching the query, or none when no document matches |
| `Database.Filter` | database_services/database_service.py:319-326 | Keeps exactly the matching elements, each with its multiplicity |
| `Database.ApplyUpdate` | database_services/database_service.py:227-229 | After the `$set`, every supplied field holds its new value and every absent field, the password included, keeps the stored value |
| `Database.ApplyUpdateNoOp` | database_services/database_service.py:227-236 | `$set` of the supplied fields changes nothing iff every supplied field already holds |
| `Database.ApplyUpdateIdempotent` | database_services/database_service.py:227-242 | Applying an update twice equals applying it once, and afterwards the no-op condition holds |
| `Database.InWindow` | database_services/database_service.py:344-372 | The `$match` stage keeps exactly the events of the user and endpoint inside the window |
| `Database.SumIn` | database_services/database_service.py:382-389 | The `$sum` over one bucket: 0 when no event falls into it, and never negative when no cost is |
| `Database.DistinctBuckets` | database_services/database_service.py:373-390 | The non-empty buckets, each once |
| `Database.GroupsOf` | database_services/database_service.py:373-390 | One group per non-empty bucket and none for an empty one, each with the summed cost of its events |
| `Database.UpperBound` | database_services/database_service.py:347-349 | The upper bound applies iff `day_to` is given and non-zero, and it is now − `day_to` days |
| `Database.GuardedDebit` | database_services/database_service.py:99-153 | `check_limit` then, on 200, `update_limit` of the same cost: only the matched user can change, key digests stay, and a counter that covers the cost drops by exactly the cost; otherwise nothing changes |
| `Database.GuardedRun` | database_services/database_service.py:99-153 | A run of such pairs keeps the table's length and key digests and never touches a user other than the matched one; with no match nothing changes |
| `Database.GuardedDebitKeepsMatch` | database_services/database_service.py:99-141 | A check-then-debit keeps the key digests, so the same user is found again |
| `Database.GuardedRunNeverNegative` | database_services/database_service.py:99-141 | A sequential run of `check_limit` then `update_limit` with costs ≥ 0 never takes a non-negative counter below zero, and never touches a negative one |
| `Database.DatabaseService.constructor` | database_services/database_service.py:21 | An empty user table and usage log over the given admin table |
| `Database.DatabaseService.CheckLimit` | database_services/database_service.py:99-125 | Not acknowledged, with 429 and the surpassed message, iff the counter is below the cost; otherwise 200 quoting the counter. An absent key digest is the unhandled subscript error. The store is unchanged |
| `Database.DatabaseService.UpdateLimit` | database_services/database_service.py:127-153 | Only that counter of that user becomes old − cost, with no floor. The reply quotes the old value |
| `Database.DatabaseService.VerifyApiKey` | database_services/database_service.py:155-167 | Succeeds iff some stored digest equals hash(token) and returns the first such record; otherwise 401 "API key is not valid" |
| `Database.DatabaseService.VerifyAdmin` | database_services/database_service.py:169-182 | Succeeds iff the first admin with that name stores hash(password), returning it with its id blanked; otherwise 401 |
| `Database.DatabaseService.AddNewUser` | database_services/database_service.py:184-214 | A duplicate `user_id` gives 409 and no change. Otherwise exactly one record is appended whose digest is the hash of the returned plaintext key, with status 201. User ids stay unique |
| `Database.DatabaseService.EditUser` | database_services/database_service.py:216-242 | An unknown user gives 404. A no-op edit gives 200, not acknowledged, and no change. Otherwise only the supplied fields of that one user are overwritten |
| `Database.DatabaseService.RetrieveUser` | database_services/database_service.py:244-269 | 404 iff no user has that id; otherwise 200 with the stored fields of the first record with that id, without the key digest |
| `Database.DatabaseService.DeleteUser` | database_services/database_service.py:271-304 | An absent user gives 404 and no change. Otherwise exactly that record is removed and no user with that id remains; the usage log is untouched |
| `Database.DatabaseService.AddRequestTsRecord` | database_services/database_service.py:306-339 | Appends exactly one event with the user, endpoint, cost and `now`; nothing else changes |
| `Database.DatabaseService.DeleteRequestTsRecord` | database_services/database_service.py:319-331 | Removes every event of the user and keeps every other event with its multiplicity |
| `Database.DatabaseService.GetTsDates` | database_services/database_service.py:341-393 | Distinct buckets. Each group's sum is the total cost of the kept events in its bucket, and exactly the non-empty buckets appear |
| `Database.DatabaseService.FindAllUsers` | database_services/database_service.py:400-407 | The `user_id` of every stored user, in store order |
| `Authentication.CallerOf` | authentication_services/authentication_service.py:54-58 | The caller identity keeps the profile and the key digest and drops the password |
| `Authentication.Split` | authentication_services/authentication_service.py:40-41 | Splitting on single spaces yields at least one piece |
| `Authentication.SplitHead` | authentication_services/authentication_service.py:40-41 | The first piece is a space-free prefix ending at a space or at the end |
| `Authentication.SplitAfterBearer` | authentication_services/authentication_service.py:40-41 | Splitting `"Bearer " + rest` gives "Bearer" followed by the pieces of `rest` |
| `Authentication.GetApiKey` | authentication_services/authentication_service.py:36-41 | 401 "Invalid authorization header" iff the header is absent or lacks the "Bearer " prefix. Otherwise the result is the text after the prefix up to the next space |
| `Authentication.GetApiKeyOfBarePrefix` | authentication_services/authentication_service.py:40-41 | The header "Bearer " yields the empty key |
| `Authentication.GetApiKeyDropsTail` | authentication_services/authentication_service.py:40-41 | Text after a further space is dropped |
| `Authentication.BearerToken` | authentication_services/authentication_service.py:27-28 | The session scheme yields a token iff the header starts with "bearer" in any letter case, followed by a space or the end; the token is the text after that space |
| `Authentication.JoseDecode` | authentication_services/authentication_service.py:78-81 | `jwt.decode` with default options: a bad signature is invalid; an `exp` before the clock truncated to whole seconds is expired; otherwise the signed claims |
| `Authentication.ValidateToken` | authentication_services/authentication_service.py:75-98 | Without a bearer token the scheme answers 401 "Not authenticated" before the body runs. 403 iff `jwt.decode` refuses the token: a bad signature, or `exp` before the current whole second. 401 "Token expired" iff `exp` is the current whole second and the clock is past it. The claims iff the clock is not after `exp` |
| `Authentication.ExpiryBoundary` | authentication_services/authentication_service.py:78-98 | At a whole second, a token expiring exactly then is accepted; one expiring a second earlier gives 403 |
| `Authentication.TokenExpiredNeedsFraction` | authentication_services/authentication_service.py:83-88 | At a whole second the "Token expired" 401 is never given |
| `Authentication.ValidateTokenIntended` | authentication_services/authentication_service.py:83-88 | With `exp` left to the handler, 403 iff the signature fails and 401 "Token expired" iff `exp` lies before the clock |
| `Authentication.IntendedAcceptsSameTokens` | authentication_services/authentication_service.py:75-98 | The intended check accepts exactly the tokens the written one accepts, and answers 401 where the written one answers 403 for a validly signed token |
| `Authentication.AuthenticationService.constructor` | authentication_services/authentication_service.py:30-34 | Holds the given store and configuration |
| `Authentication.AuthenticationService.ApiKeyAuth` | authentication_services/authentication_service.py:43-58 | A header error is passed on as 401. Otherwise it succeeds iff hash(key) is stored, returning that record minus the password, and fails with the store's 401 |
| `Authentication.AuthenticationService.InitKeyAuth` | authentication_services/authentication_service.py:60-73 | Passes iff the header's key equals the initialisation token; otherwise 401 |
| `Authentication.AuthenticationService.GenerateAccessToken` | authentication_services/authentication_service.py:100-106 | Signed with the access secret, expiring after the access lifetime |
| `Authentication.AuthenticationService.GenerateRefreshToken` | authentication_services/authentication_service.py:108-114 | Signed with the refresh secret, expiring after the refresh lifetime |
| `App.Admit` | app.py:141-145 | Admitted iff the quota is not exhausted and the flag is set. A zero counter gives 429 before the flag is read, and 429 comes only from that. A false flag gives 403 and a missing flag gives 500 |
| `App.CallerIndex` | app.py:130-132 | The caller is the first user whose digest is the hash of the header's key, or none |
| `App.Debit` | app.py:147-153 | The `update_*_limit` call inside the handler's `try`: served iff the key digest is stored, and then exactly that user's counter moves by the charge. A missing document gives 503 with the subscript error and no change |
| `App.HandleOutcome` | app.py:129-341 | A `/v1` request is served iff the caller is found, admitted and the upstream call succeeds. An unknown caller gets 401. A refused request or an unmetered endpoint leaves the table as it was; a served metered request moves exactly the caller's counter by the endpoint's charge |
| `App.UnauthenticatedChangesNothing` | app.py:130-132 | A request without a valid key gets 401 and changes nothing |
| `App.QuotaCheckedFirst` | app.py:141-145 | A zero counter gives 429 whatever the permission map holds, and changes nothing |
| `App.NegativeQuotaAdmitted` | app.py:141-145 | The quota test is an equality: a negative counter with the flag set is admitted |
| `App.ForbiddenChangesNothing` | app.py:144-145 | A false permission flag gives 403 and changes nothing |
| `App.DownstreamFailureChangesNothing` | app.py:147-152 | A failed upstream call gives 503 and moves no counter |
| `App.SuccessSettlesCharge` | app.py:147-153 | After admission and upstream success, exactly the caller's counter moves by the endpoint's charge |
| `App.MeteredEndpointsDebitRequestLimit` | app.py:147-153 | Completions, chat and embeddings take exactly one from the caller's `request_limit` and leave `fine_tune_limit` and all other users alone |
| `App.FineTunesDebitsFineTuneLimit` | app.py:265-277 | `fine_tunes` gives 429 at `fine_tune_limit == 0`; otherwise, when permitted, it takes one from that counter only |
| `App.CancelFineTuneRefunds` | app.py:312-321 | `cancel_fine_tune` has no quota guard; when permitted it gives one back to `fine_tune_limit` |
| `App.UnmeteredEndpointsChangeNothing` | app.py:220-251 | Upload, list files, retrieve fine-tune and list fine-tunes never move a counter; they serve iff the flag is set and upstream succeeds |
| `App.HandleKeepsLimitsNonNegative` | app.py:129-341 | No `/v1` request takes a non-negative counter below zero |
| `App.Serve` | app.py:129-153 | A `/v1` request changes the user table as `Handle` says, and changes neither the admin table nor the usage log |
| `App.ServeCaller` | app.py:141-153 | Past authentication, the handler answers and updates the table as `Settle` says for the stored caller, and touches nothing else |
| `App.RetrieveCaller` | app.py:115-127 | The caller's own profile iff authenticated, otherwise 401 |
| `App.Login` | app.py:28-38 | Succeeds iff the admin's stored digest matches, issuing an access and a refresh token for that admin; otherwise 401 |
| `App.Add` | app.py:40-57 | The session check comes first, then the body; a duplicate gives 409 and no change; otherwise one record is appended and 201 carries the plaintext key |
| `App.Update` | app.py:59-75 | Session check, then the body. An unknown user gives 404. A no-op edit is raised as status 200. Otherwise that user's stored record becomes the record with the supplied fields applied, and the answer carries it; no other user changes |
| `App.GetUser` | app.py:77-94 | After the session check, the stored fields of the user, or 404 iff absent |
| `App.DeleteUser` | app.py:96-113 | After the session check, 404 and no change when absent; otherwise exactly that record is removed and returned |
| `AdminPanel.ValidatePassword` | app_admin.py:728-745 | Holds iff the password has at least 8 characters, contains a lower-case letter, an upper-case letter and a digit, and has no white space |
| `AdminPanel.ValidatePasswordExtends` | app_admin.py:728-745 | Appending a non-space character keeps a valid password valid |
| `AdminPanel.GetSlice` | app_admin.py:715-726 | Gives no slice iff the window exceeds 365 days. Minute iff it is at most 2/24 days, hour iff it is in (2/24, 1], day iff in (1, 30], month iff in (30, 365]. A slice given is always one the chart draws |
| `AdminPanel.GetSliceMonotone` | app_admin.py:715-726 | A wider window never gets a finer slice |
| `AdminPanel.GenerateDayFromTo` | app_admin.py:633-650 | A window iff the label is known, ending now and reaching back at most 365 days |
| `AdminPanel.RangeLabelSlices` | app_admin.py:633-650 | Each offered range is charted at minute, hour, day or month as its width dictates |
| `AdminPanel.StepCount` | app_admin.py:662-678 | The number of grid points `k * unit` inside `[0, span]` |
| `AdminPanel.MonthCount` | app_admin.py:680-682 | `months + 2` points, none when that is negative |
| `AdminPanel.LabelsOf` | app_admin.py:693-703 | One label per point: the point's calendar bucket |
| `AdminPanel.GenerateXData` | app_admin.py:660-685 | Minute, hour and day axes step from `date_from` by the unit, stay inside the window and end within one unit of `date_to`. The month axis has `relativedelta(...).months + 2` points, at most 13, stepped by calendar months. Other slices give no axis |
| `AdminPanel.GridSteps` | app_admin.py:670-678 | `n` instants, the `k`-th `k * unit` seconds after `date_from` |
| `AdminPanel.MonthSteps` | app_admin.py:680-681 | `n` instants, the `k`-th `relativedelta(months=k)` after `date_from` |
| `AdminPanel.GridWithin` | app_admin.py:670-678 | The fixed-unit grid stays inside the window |
| `AdminPanel.IndexOf` | app_admin.py:708 | The first index of a key on the axis, or none iff absent |
| `AdminPanel.Fill` | app_admin.py:705-711 | One value per axis point; a non-zero value is the sum of some row whose bucket is first found at that point |
| `AdminPanel.FillAt` | app_admin.py:705-711 | A position holds 0 when no row lands there, otherwise the sum of the last row landing there |
| `AdminPanel.FillLastWins` | app_admin.py:705-711 | The sum of the last row landing at a point is what stays there |
| `AdminPanel.GenerateYData` | app_admin.py:687-713 | One value per axis point; all zeros without rows or for an uncharted slice; otherwise the rows written over zeros at their first matching position |
| `AdminPanel.ChartShowsBucketSums` | app_admin.py:687-713 | Feeding the grouped usage into the series gives, at each axis bucket's first position, that bucket's summed cost |
| `AdminPanel.MonthAxisOfAFullYear` | app_admin.py:680-682 | The written month axis for 2022-01-01 → 2023-01-01 is January and February 2022 only, and it misses January 2023 |
| `AdminPanel.MonthAxis` | app_admin.py:680-682 | A point for each whole month of the difference plus two, stepped by calendar months |
| `AdminPanel.MonthAxisCountsEveryMonth` | app_admin.py:663-682 | The corrected axis equals the written one below a year and is strictly longer from a year on |
| `AdminPanel.MonthAxisBracketsDateTo` | app_admin.py:663-682 | Over a forward window the corrected axis ends with the last month step not after `date_to`, then the first step past it |
| `AdminPanel.TotalMonthsOf2022` | app_admin.py:663 | `relativedelta` finds twelve whole months from 2022-01-01 to 2023-01-01 |
| `AdminPanel.MonthAxisOfAFullYearReachesDateTo` | app_admin.py:680-682 | For the year 2022 the corrected axis has 14 points and reaches January 2023 |
| `AdminPanel.ChecklistToMap` | app_admin.py:208-219 | The four names plus the ticked ones, each true iff ticked |
| `AdminPanel.ChecklistPassesValidator` | app_admin.py:208-219 | A checklist of permission names passes the permission validator, and only the set of ticked names matters |
| `AdminPanel.ConvertPermissions` | app_admin.py:67-78 | The loop builds exactly that map |
| `AdminPanel.ConvertUserForm` | app_admin.py:208-219 | The add-user body: the checklist converted and the repeated password dropped |
| `AdminPanel.ConvertUpdateForm` | app_admin.py:343-353 | The update body: only the checklist converted |
| `AdminPanel.ConvertedFormValidates` | app_admin.py:208-219 | A converted form with known permission names and privilege is accepted as a `User`, granting exactly the ticked permissions |
| `Calendar.CivilFromDays` | database_services/database_service.py:374-380 | The `$dateToParts` date of a day count is a valid calendar date |
| `Calendar.CivilOfDays` | database_services/database_service.py:374-380 | Every day count names a valid date that counts back to it |
| `Calendar.DaysOfCivil` | database_services/database_service.py:374-380 | Every valid date survives the round trip through its day count |
| `Calendar.Parts` | database_services/database_service.py:374-380 | Six parts: the date of the timestamp's day, then hour, minute and second in range that add up to its time of day |
| `Calendar.PartsRoundTrip` | database_services/database_service.py:374-380 | The parts of a timestamp give the timestamp back |
| `Calendar.ShiftMonthsLands` | app_admin.py:681 | A month step from a valid date lands `k` months on, on the same day or on the last day of a shorter month |
| `Calendar.AddMonths` | app_admin.py:681 | `relativedelta(months=k)` keeps the time of day and moves the day as a month step does |
| `Calendar.AddMonthsIndex` | app_admin.py:681 | Stepping `k` months moves the year-month number by exactly `k` |
| `Calendar.AddNoMonths` | app_admin.py:681 | Stepping zero months keeps the instant |
| `Calendar.TotalMonthsBracket` | app_admin.py:663 | The whole months `relativedelta(to, from)` counts bracket `to`: that many months from `from` do not pass it and one more does (mirrored going backwards), so the library's correction loop ends after one step |
| `Calendar.TotalMonthsNonNegative` | app_admin.py:663 | Going forwards the count of whole months is never negative |
| `Calendar.MonthsComponent` | app_admin.py:669 | The months component of a span of whole months lies in −11..11 and is the remainder by twelve, with the span's sign |
| `Calendar.Truncate` | database_services/database_service.py:351-363 | A bucket keeps as many leading calendar parts as its slice |

## Left out

- The pywebio/pyecharts panel (page flow, forms, toasts, charts, tables) and the HTTP client the panel uses: rendering and HTTP plumbing. The panel's user-search flow and the password-change and scope-removal pages are part of this.
- Authentication.ValidateToken: python-jose and the handler each read the clock; the model takes one reading for both. The admin handlers (`App.Add`, `App.Update`, `App.GetUser`, `App.DeleteUser`) keep the session check as written, since they model the endpoints' answers; `ValidateTokenIntended` stands beside it.
- The upstream OpenAI calls: the model takes only their success or failure; their payloads and streaming are not modelled. A failure carries its exception text as an arbitrary `reason`, which becomes the 503 detail.
- Configuration from environment variables: the settings are parameters (`AuthConfig`, the salt), with the documented defaults as constants.
- MongoDB mechanics: the time-series collection creation, its 60-day expiry, asynchronous awaits and document ids.
- Concurrency: two requests interleaving between a handler's quota test and its debit are not modelled; everything runs sequentially.
- SHA-256 and JWT signing are uninterpreted. No property relies on distinct inputs giving distinct digests or on a wrong key failing verification.
- Authentication.ValidateToken: the `eval` applied to every string claim is taken as the identity. In the source a plain-name subject such as `admin` makes `eval` raise `NameError`, which nothing catches, so the request fails with 500 (authentication_services/authentication_service.py:89-91); evaluating arbitrary code is out of scope.
- Python floats and timezones: windows are exact reals, timestamps are naive whole seconds, and the mix of local time, UTC and Mongo's UTC parts is not modelled.
- `generate_x_data_days`: it converts fractional days to `timedelta` and back, which is float arithmetic.
- Label formatting with `strftime`: axis labels are the calendar-part lists the buckets use, not strings.
- Reply texts that embed values (`Limit is …`, `Limit has been updated. Limit: …`) are a `Detail` carrying the value rather than the formatted text.
- `retrieve_user`/`delete_user` search by `user_id` only; other search keys are not modelled.
- `check_request_limit`/`check_finetune_limit` and `update_request_limit`/`update_finetune_limit` are `CheckLimit`/`UpdateLimit` with the `LimitKey` argument fixed.
- Explicit JSON `null` for an optional field is not distinguished from an absent field.
- Database.DatabaseService.DeleteUser: the 409 reply for a delete that reports no deleted document is not modelled; sequentially, a document found just before is always deleted.
- Database.DatabaseService.EditUser: the no-op test compares the permission map as an unordered map. MongoDB compares embedded documents field by field in order, so there the same map with its keys in another order counts as a change.
- Database.DatabaseService.RetrieveUser: the stored password is part of the returned user data, as in the source.
- App.Add: on success the handler returns, rather than raises, an `HTTPException`. FastAPI serialises its `status_code` (201), its `detail` (the key) and its `headers` as the body of a response with HTTP status 200. The model returns the store's reply with status 201 and the key; the response's own status 200 is not modelled.
- App.Update: an edit that changes nothing is raised as an HTTP error with status 200; the model returns it as `Err(200, …)`.
- `AdminPanel.GenerateXData` for slices other than minute, hour, day and month returns no axis, where the source fails with an unbound local variable.
- `delete_request_ts_record` answers with the text "Record has been added.", which is kept as written.
- Broken wiring at start-up (imports from the wrong module, a missing constructor argument, a missing configuration attribute): the classes are modelled as if constructed correctly.

## Findings

| source | as written | input that shows it | evidently intended | confidence | as-written member | corrected member |
|---|---|---|---|---|---|---|
| authentication_services/authentication_service.py:78-98 | `jwt.decode` runs with its default options, so python-jose already refuses a token whose `exp` lies before the current whole second, and the `JWTError` handler answers 403. The handler's own check `datetime.fromtimestamp(exp) < datetime.now()` can then fire only within the second where `exp` equals the truncated clock | A validly signed token with `exp` one second before now: 403 "Could not validate credentials", not 401 "Token expired" | An expired token answers 401 "Token expired", the branch written for it | not executed | `Authentication.TokenExpiredNeedsFraction` | `Authentication.ValidateTokenIntended` |
| app_admin.py:663-682 | The month axis has `relativedelta(date_to, date_from).months + 2` points. `.months` is only the months component; whole years go to `.years`. The defect is latent: the panel's range menu stops at '6 months' (app_admin.py:508-509); only `generate_day_from_to` maps '1 year' (app_admin.py:649-650) | `date_from` 2022-01-01 00:00, `date_to` 2023-01-01 00:00 (the "1 year" range), slice month: `.months` is 0, so the axis is January and February 2022 only | One point per whole month spanned plus two, so the axis reaches the month of `date_to` (14 points here) | not executed | `AdminPanel.MonthAxisOfAFullYear` | `AdminPanel.MonthAxisCountsEveryMonth` |
