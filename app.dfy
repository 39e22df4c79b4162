/** The HTTP handlers: per-endpoint admission of an authenticated caller (a
    quota test, then a permission flag), the downstream call reduced to its
    success or failure, and the debit or credit of one quota counter; and the
    administrator handlers guarded by a session token. */
module App {
  import opened Wrappers
  import opened Calendar
  import opened Schema
  import opened DatabaseUtils
  import opened Database
  import opened Authentication

  const TooManyRequests: int := 429
  const Forbidden: int := 403
  const ServiceUnavailable: int := 503
  const ForbiddenMessage: string :=
    "You do not have the privilage to access this endpoint. Contact administration."
  /** The permission map lacks the flag the handler subscripts. */
  const MissingFlag: string := "KeyError"

  /** The proxied `/v1` endpoints. */
  datatype Endpoint =
    | Completions | ChatCompletions | Embeddings
    | UploadFiles | ListFiles
    | FineTunes | RetrieveFineTune | CancelFineTune | ListFineTunes

  /** The upstream call's outcome; its payload is not modelled. */
  datatype Downstream = Succeeded | Failed(reason: string)

  /** What a `/v1` handler answers: the upstream result passed through, or an error. */
  datatype Answer = Served | Refused(status: int, detail: string)

  /** A counter update the handler applies after a successful upstream call. */
  datatype Charge = Charge(key: LimitKey, cost: int)

  /** The counter whose value zero closes the endpoint, where there is one. */
  function QuotaGuard(ep: Endpoint): Option<LimitKey> {
    match ep
    case Completions => Some(RequestLimit)
    case ChatCompletions => Some(RequestLimit)
    case Embeddings => Some(RequestLimit)
    case FineTunes => Some(FineTuneLimit)
    case _ => None
  }

  /** The permission flag the endpoint requires. */
  function PermissionFlag(ep: Endpoint): string {
    match ep
    case Completions => TextCompletionModels
    case ChatCompletions => ChatCompletionModels
    case Embeddings => EmbeddingsPermission
    case _ => FineTunePermission
  }

  /** The counter update after a successful upstream call, where there is one. */
  function ChargeOf(ep: Endpoint): Option<Charge> {
    match ep
    case Completions => Some(Charge(RequestLimit, 1))
    case ChatCompletions => Some(Charge(RequestLimit, 1))
    case Embeddings => Some(Charge(RequestLimit, 1))
    case FineTunes => Some(Charge(FineTuneLimit, 1))
    case CancelFineTune => Some(Charge(FineTuneLimit, -1))
    case _ => None
  }

  predicate QuotaExhausted(p: Profile, ep: Endpoint) {
    QuotaGuard(ep).Some? && Limit(p, QuotaGuard(ep).value) == 0
  }

  predicate Permitted(p: Profile, ep: Endpoint) {
    PermissionFlag(ep) in p.permissions && p.permissions[PermissionFlag(ep)]
  }

  /** The guards a handler runs on the caller before the upstream call: the
      quota test comes first and is an equality with zero; the permission flag
      second. */
  function Admit(p: Profile, ep: Endpoint): (v: Answer)
    ensures v.Served? <==> !QuotaExhausted(p, ep) && Permitted(p, ep)
    ensures QuotaExhausted(p, ep) ==> v == Refused(TooManyRequests, LimitSurpassed)
    ensures v == Refused(Forbidden, ForbiddenMessage) <==>
      !QuotaExhausted(p, ep) && PermissionFlag(ep) in p.permissions && !p.permissions[PermissionFlag(ep)]
    ensures !QuotaExhausted(p, ep) && PermissionFlag(ep) !in p.permissions ==>
      v == Refused(InternalError, MissingFlag)
    ensures v.Refused? && v.status == TooManyRequests ==> QuotaExhausted(p, ep)
    ensures v.Refused? ==> v.status in {TooManyRequests, Forbidden, InternalError}
  {
    if QuotaExhausted(p, ep) then Refused(TooManyRequests, LimitSurpassed)
    else if PermissionFlag(ep) !in p.permissions then Refused(InternalError, MissingFlag)
    else if !p.permissions[PermissionFlag(ep)] then Refused(Forbidden, ForbiddenMessage)
    else Served
  }

  /** The index of the authenticated caller's record, when the header carries
      a key whose digest is stored. */
  function CallerIndex(users: seq<UserRecord>, hash: Hasher, authorization: Option<string>): (i: Option<nat>)
    ensures i.Some? ==>
      && GetApiKey(authorization).Ok? && i.value < |users|
      && users[i.value].apiKey == hash(GetApiKey(authorization).value)
      && forall j :: 0 <= j < i.value ==> users[j].apiKey != hash(GetApiKey(authorization).value)
    ensures i.None? <==>
      || GetApiKey(authorization).Err?
      || forall j :: 0 <= j < |users| ==> users[j].apiKey != hash(GetApiKey(authorization).value)
  {
    match GetApiKey(authorization)
    case Err(_, _) => None
    case Ok(token) => FirstMatch(users, ByApiKey(hash(token)))
  }

  /** `update_limit` inside the handler's `try`: a missing document surfaces as 503. */
  function Debit(users: seq<UserRecord>, hashedApiKey: string, c: Charge): (r: (Answer, seq<UserRecord>))
    ensures r.0 == Served <==> FirstMatch(users, ByApiKey(hashedApiKey)).Some?
    ensures FirstMatch(users, ByApiKey(hashedApiKey)).None? ==>
      r == (Refused(ServiceUnavailable, NotSubscriptable), users)
    ensures FirstMatch(users, ByApiKey(hashedApiKey)).Some? ==>
      MovedBy(users, r.1, FirstMatch(users, ByApiKey(hashedApiKey)).value, c.key, c.cost)
  {
    match FirstMatch(users, ByApiKey(hashedApiKey))
    case None => (Refused(ServiceUnavailable, NotSubscriptable), users)
    case Some(i) =>
      (Served, users[i := WithLimit(users[i], c.key, Limit(users[i].user.profile, c.key) - c.cost)])
  }

  /** A `/v1` request from start to end, on the user table: authentication,
      admission, the upstream call, then the counter update. */
  function Handle(users: seq<UserRecord>, hash: Hasher, authorization: Option<string>,
                  ep: Endpoint, downstream: Downstream): (Answer, seq<UserRecord>)
  {
    match GetApiKey(authorization)
    case Err(status, detail) => (Refused(status, detail), users)
    case Ok(token) =>
      match FirstMatch(users, ByApiKey(hash(token)))
      case None => (Refused(401, ApiKeyNotValid), users)
      case Some(i) => Settle(users, i, ep, downstream)
  }

  /** A request once its caller is known to be user `i`: admission, the
      upstream call, then the counter update. */
  function Settle(users: seq<UserRecord>, i: nat, ep: Endpoint, downstream: Downstream): (Answer, seq<UserRecord>)
    requires i < |users|
  {
    var verdict := Admit(users[i].user.profile, ep);
    if verdict.Refused? then (verdict, users)
    else if downstream.Failed? then (Refused(ServiceUnavailable, downstream.reason), users)
    else match ChargeOf(ep)
      case None => (Served, users)
      case Some(c) => Debit(users, users[i].apiKey, c)
  }

  /** Exactly one counter of one user moved by `-delta`; everything else equal. */
  predicate MovedBy(before: seq<UserRecord>, after: seq<UserRecord>, i: nat, key: LimitKey, delta: int)
    requires i < |before|
  {
    && |after| == |before|
    && (forall j :: 0 <= j < |before| && j != i ==> after[j] == before[j])
    && after[i] == WithLimit(before[i], key, Limit(before[i].user.profile, key) - delta)
  }

  /** A request is served exactly when the caller is found, admitted and the
      upstream call succeeds; a refused request changes nothing, and a served
      one moves the caller's counter by the endpoint's charge and nothing else. */
  lemma HandleOutcome(users: seq<UserRecord>, hash: Hasher, authorization: Option<string>,
                      ep: Endpoint, downstream: Downstream)
    ensures var (r, after) := Handle(users, hash, authorization, ep, downstream);
      && (CallerIndex(users, hash, authorization).None? ==> r.Refused? && r.status == 401)
      && (r.Served? <==>
          && CallerIndex(users, hash, authorization).Some?
          && Admit(users[CallerIndex(users, hash, authorization).value].user.profile, ep).Served?
          && downstream == Succeeded)
      && (r.Refused? || ChargeOf(ep).None? ==> after == users)
      && (r.Served? && ChargeOf(ep).Some? ==>
          MovedBy(users, after, CallerIndex(users, hash, authorization).value, ChargeOf(ep).value.key, ChargeOf(ep).value.cost))
  {
    var i := CallerIndex(users, hash, authorization);
    if i.Some? && ChargeOf(ep).Some? {
      assert FirstMatch(users, ByApiKey(users[i.value].apiKey)) == Some(i.value);
    }
  }

  /** An unauthenticated request is answered with 401 and changes nothing. */
  lemma UnauthenticatedChangesNothing(users: seq<UserRecord>, hash: Hasher, authorization: Option<string>,
                                      ep: Endpoint, downstream: Downstream)
    requires CallerIndex(users, hash, authorization).None?
    ensures Handle(users, hash, authorization, ep, downstream).1 == users
    ensures Handle(users, hash, authorization, ep, downstream).0.status == 401
  {
  }

  /** The quota test precedes the permission test: an exhausted counter gives
      429 whatever the permission map holds, and nothing changes. */
  lemma QuotaCheckedFirst(users: seq<UserRecord>, hash: Hasher, authorization: Option<string>,
                          ep: Endpoint, downstream: Downstream, i: nat, perms: Permissions)
    requires CallerIndex(users, hash, authorization) == Some(i)
    requires QuotaExhausted(users[i].user.profile, ep)
    ensures var u := users[i := users[i].(user := users[i].user.(profile := users[i].user.profile.(permissions := perms)))];
      Handle(u, hash, authorization, ep, downstream) == (Refused(TooManyRequests, LimitSurpassed), u)
    ensures Handle(users, hash, authorization, ep, downstream) == (Refused(TooManyRequests, LimitSurpassed), users)
  {
    var u := users[i := users[i].(user := users[i].user.(profile := users[i].user.profile.(permissions := perms)))];
    FirstMatchSameKeys(users, u, hash(GetApiKey(authorization).value));
  }

  /** The quota tests are equalities: a negative counter does not close the endpoint. */
  lemma NegativeQuotaAdmitted(p: Profile, ep: Endpoint)
    requires QuotaGuard(ep).Some? && Limit(p, QuotaGuard(ep).value) < 0
    requires Permitted(p, ep)
    ensures Admit(p, ep) == Served
  {
  }

  /** A false permission flag gives 403 and changes nothing. */
  lemma ForbiddenChangesNothing(users: seq<UserRecord>, hash: Hasher, authorization: Option<string>,
                                ep: Endpoint, downstream: Downstream, i: nat)
    requires CallerIndex(users, hash, authorization) == Some(i)
    requires !QuotaExhausted(users[i].user.profile, ep)
    requires PermissionFlag(ep) in users[i].user.profile.permissions
    requires !users[i].user.profile.permissions[PermissionFlag(ep)]
    ensures Handle(users, hash, authorization, ep, downstream) == (Refused(Forbidden, ForbiddenMessage), users)
  {
  }

  /** A failed upstream call gives 503 and no counter moves. */
  lemma DownstreamFailureChangesNothing(users: seq<UserRecord>, hash: Hasher, authorization: Option<string>,
                                        ep: Endpoint, reason: string, i: nat)
    requires CallerIndex(users, hash, authorization) == Some(i)
    requires Admit(users[i].user.profile, ep).Served?
    ensures Handle(users, hash, authorization, ep, Failed(reason)) == (Refused(ServiceUnavailable, reason), users)
  {
  }

  /** After admission and a successful upstream call, the caller's counter for
      the endpoint moves by the endpoint's charge, and nothing else changes. */
  lemma SuccessSettlesCharge(users: seq<UserRecord>, hash: Hasher, authorization: Option<string>,
                             ep: Endpoint, i: nat)
    requires CallerIndex(users, hash, authorization) == Some(i)
    requires Admit(users[i].user.profile, ep).Served?
    ensures Handle(users, hash, authorization, ep, Succeeded).0 == Served
    ensures ChargeOf(ep).None? ==> Handle(users, hash, authorization, ep, Succeeded).1 == users
    ensures ChargeOf(ep).Some? ==>
      MovedBy(users, Handle(users, hash, authorization, ep, Succeeded).1, i, ChargeOf(ep).value.key, ChargeOf(ep).value.cost)
  {
    var token := GetApiKey(authorization).value;
    assert FirstMatch(users, ByApiKey(users[i].apiKey)) == Some(i) by {
      assert users[i].apiKey == hash(token);
    }
  }

  /** The three metered endpoints take exactly one from `request_limit` of the
      caller and leave `fine_tune_limit` and all other users alone. */
  lemma MeteredEndpointsDebitRequestLimit(users: seq<UserRecord>, hash: Hasher, authorization: Option<string>,
                                          ep: Endpoint, i: nat)
    requires ep == Completions || ep == ChatCompletions || ep == Embeddings
    requires CallerIndex(users, hash, authorization) == Some(i)
    requires users[i].user.profile.requestLimit != 0 && Permitted(users[i].user.profile, ep)
    ensures var (r, after) := Handle(users, hash, authorization, ep, Succeeded);
      && r == Served && |after| == |users|
      && after[i].user.profile.requestLimit == users[i].user.profile.requestLimit - 1
      && after[i].user.profile.fineTuneLimit == users[i].user.profile.fineTuneLimit
      && after[i].apiKey == users[i].apiKey
      && forall j :: 0 <= j < |users| && j != i ==> after[j] == users[j]
  {
    SuccessSettlesCharge(users, hash, authorization, ep, i);
  }

  /** `fine_tunes` closes on `fine_tune_limit == 0` and otherwise, when
      permitted, takes one from that counter. */
  lemma FineTunesDebitsFineTuneLimit(users: seq<UserRecord>, hash: Hasher, authorization: Option<string>, i: nat)
    requires CallerIndex(users, hash, authorization) == Some(i)
    ensures users[i].user.profile.fineTuneLimit == 0 ==>
      Handle(users, hash, authorization, FineTunes, Succeeded) == (Refused(TooManyRequests, LimitSurpassed), users)
    ensures users[i].user.profile.fineTuneLimit != 0 && Permitted(users[i].user.profile, FineTunes) ==>
      var (r, after) := Handle(users, hash, authorization, FineTunes, Succeeded);
      && r == Served && |after| == |users|
      && after[i].user.profile.fineTuneLimit == users[i].user.profile.fineTuneLimit - 1
      && after[i].user.profile.requestLimit == users[i].user.profile.requestLimit
      && forall j :: 0 <= j < |users| && j != i ==> after[j] == users[j]
  {
    if users[i].user.profile.fineTuneLimit != 0 && Permitted(users[i].user.profile, FineTunes) {
      SuccessSettlesCharge(users, hash, authorization, FineTunes, i);
    }
  }

  /** `cancel_fine_tune` has no quota test: with the flag set it is admitted
      whatever the counters hold, and gives one back to `fine_tune_limit`. */
  lemma CancelFineTuneRefunds(users: seq<UserRecord>, hash: Hasher, authorization: Option<string>, i: nat)
    requires CallerIndex(users, hash, authorization) == Some(i)
    requires Permitted(users[i].user.profile, CancelFineTune)
    ensures var (r, after) := Handle(users, hash, authorization, CancelFineTune, Succeeded);
      && r == Served && |after| == |users|
      && after[i].user.profile.fineTuneLimit == users[i].user.profile.fineTuneLimit + 1
      && after[i].user.profile.requestLimit == users[i].user.profile.requestLimit
      && forall j :: 0 <= j < |users| && j != i ==> after[j] == users[j]
  {
    SuccessSettlesCharge(users, hash, authorization, CancelFineTune, i);
  }

  /** File upload and listing, fine-tune retrieval and listing look only at the
      `fine_tune` flag and never move a counter. */
  lemma UnmeteredEndpointsChangeNothing(users: seq<UserRecord>, hash: Hasher, authorization: Option<string>,
                                        ep: Endpoint, downstream: Downstream, i: nat)
    requires ep == UploadFiles || ep == ListFiles || ep == RetrieveFineTune || ep == ListFineTunes
    requires CallerIndex(users, hash, authorization) == Some(i)
    ensures Handle(users, hash, authorization, ep, downstream).1 == users
    ensures Handle(users, hash, authorization, ep, downstream).0 == Served <==>
      Permitted(users[i].user.profile, ep) && downstream.Succeeded?
  {
  }

  predicate NonNegativeLimits(users: seq<UserRecord>) {
    forall j :: 0 <= j < |users| ==> users[j].user.profile.requestLimit >= 0 && users[j].user.profile.fineTuneLimit >= 0
  }

  /** Because a counter at zero closes its endpoint and every debit is one, no
      request takes a non-negative counter below zero. */
  lemma HandleKeepsLimitsNonNegative(users: seq<UserRecord>, hash: Hasher, authorization: Option<string>,
                                     ep: Endpoint, downstream: Downstream)
    requires NonNegativeLimits(users)
    ensures NonNegativeLimits(Handle(users, hash, authorization, ep, downstream).1)
  {
    var after := Handle(users, hash, authorization, ep, downstream).1;
    var i := CallerIndex(users, hash, authorization);
    if i.Some? && Admit(users[i.value].user.profile, ep).Served? && downstream.Succeeded? && ChargeOf(ep).Some? {
      SuccessSettlesCharge(users, hash, authorization, ep, i.value);
      var c := ChargeOf(ep).value;
      var p := users[i.value].user.profile;
      assert c.cost == 1 ==> QuotaGuard(ep) == Some(c.key) && Limit(p, c.key) != 0;
      assert Limit(after[i.value].user.profile, c.key) >= 0;
    }
  }

  /** A `/v1` handler on the shared store: the store changes as `Handle`
      says, and no usage event is recorded. */
  method Serve(auth: AuthenticationService, ep: Endpoint, authorization: Option<string>, downstream: Downstream)
    returns (r: Answer)
    requires auth.database.Valid()
    modifies auth.database
    ensures auth.database.Valid()
    ensures auth.database.events == old(auth.database.events)
    ensures auth.database.admins == old(auth.database.admins)
    ensures (r, auth.database.users) == Handle(old(auth.database.users), auth.database.hash, authorization, ep, downstream)
  {
    ghost var users := auth.database.users;
    var caller := auth.ApiKeyAuth(authorization);
    if caller.Err? {
      return Refused(caller.status, caller.detail);
    }
    ghost var i := FirstMatch(users, ByApiKey(auth.database.hash(GetApiKey(authorization).value))).value;
    assert FirstMatch(users, ByApiKey(users[i].apiKey)) == Some(i);
    r := ServeCaller(auth.database, ep, downstream, caller.value, i);
  }

  /** The handler past `api_key_auth`, for the caller stored as user `i`. */
  method ServeCaller(database: DatabaseService, ep: Endpoint, downstream: Downstream, caller: Caller, ghost i: nat)
    returns (r: Answer)
    requires database.Valid()
    requires i < |database.users| && caller == CallerOf(database.users[i])
    requires FirstMatch(database.users, ByApiKey(database.users[i].apiKey)) == Some(i)
    modifies database
    ensures database.Valid()
    ensures database.events == old(database.events) && database.admins == old(database.admins)
    ensures (r, database.users) == Settle(old(database.users), i, ep, downstream)
  {
    var verdict := Admit(caller.profile, ep);
    if verdict.Refused? {
      return verdict;
    }
    if downstream.Failed? {
      return Refused(ServiceUnavailable, downstream.reason);
    }
    var charge := ChargeOf(ep);
    if charge.None? {
      return Served;
    }
    var debit := database.UpdateLimit(caller.apiKey, charge.value.key, charge.value.cost);
    r := if debit.Ok? then Served else Refused(ServiceUnavailable, NotSubscriptable);
  }

  /** `GET /get`: the caller's own record without password and key digest. */
  method RetrieveCaller(auth: AuthenticationService, authorization: Option<string>) returns (r: Result<Profile>)
    ensures r.Ok? <==> CallerIndex(auth.database.users, auth.database.hash, authorization).Some?
    ensures r.Ok? ==>
      r.value == auth.database.users[CallerIndex(auth.database.users, auth.database.hash, authorization).value].user.profile
    ensures r.Err? ==> r.status == 401
  {
    var caller := auth.ApiKeyAuth(authorization);
    if caller.Err? {
      return Err(caller.status, caller.detail);
    }
    r := Ok(caller.value.profile);
  }

  /** The text of an unacknowledged store reply. */
  function MessageOf(d: Detail): string {
    if d.Message? then d.text else ""
  }

  /** `POST /admin/token`: an administrator's credentials exchanged for an
      access and a refresh token, both naming the administrator. */
  method Login(auth: AuthenticationService, username: string, password: string, now: Timestamp)
    returns (r: Result<(Jwt, Jwt)>)
    ensures var found := FirstMatch(auth.database.admins, ByUsername(username));
      r.Ok? <==> found.Some? && auth.database.admins[found.value].password == auth.database.hash(password)
    ensures r.Err? ==> r == Err(401, "Incorrect username or password")
    ensures r.Ok? ==>
      && r.value.0 == auth.GenerateAccessToken(username, now)
      && r.value.1 == auth.GenerateRefreshToken(username, now)
      && r.value.0.payload.sub == username && r.value.0.key == auth.config.jwtSecretKey
      && r.value.1.payload.sub == username && r.value.1.key == auth.config.jwtRefreshSecretKey
  {
    var result := auth.database.VerifyAdmin(username, password);
    if result.Err? {
      return Err(401, "Incorrect username or password");
    }
    r := Ok((auth.GenerateAccessToken(result.value.username, now),
             auth.GenerateRefreshToken(result.value.username, now)));
  }

  /** `POST /admin/add`: the session token is checked first, then the body,
      then the store adds the user; the answer carries the plaintext key. */
  method Add(auth: AuthenticationService, authorization: Option<string>, signed: Option<Payload>, clock: int,
             body: Result<User>, envSalt: Option<string>, draws: seq<nat>) returns (r: Result<Reply>)
    requires auth.database.Valid()
    requires 5 <= |draws| <= 10
    modifies auth.database
    ensures auth.database.Valid()
    ensures auth.database.events == old(auth.database.events)
    ensures auth.database.admins == old(auth.database.admins)
    ensures ValidateToken(authorization, signed, clock).Err? ==>
      r == Err(ValidateToken(authorization, signed, clock).status, ValidateToken(authorization, signed, clock).detail)
      && auth.database.users == old(auth.database.users)
    ensures ValidateToken(authorization, signed, clock).Ok? && body.Err? ==>
      r == Err(body.status, body.detail) && auth.database.users == old(auth.database.users)
    ensures ValidateToken(authorization, signed, clock).Ok? && body.Ok? ==>
      var userId := body.value.profile.userId;
      && ((exists i :: 0 <= i < |old(auth.database.users)| && old(auth.database.users)[i].user.profile.userId == userId) ==>
            r == Err(409, "User already exists.") && auth.database.users == old(auth.database.users))
      && ((forall i :: 0 <= i < |old(auth.database.users)| ==> old(auth.database.users)[i].user.profile.userId != userId) ==>
            && r.Ok? && r.value.status == 201 && r.value.detail.ApiKeyIssued?
            && r.value.detail.apiKey == GenerateApiKey(auth.database.hash, userId, envSalt, draws)
            && auth.database.users == old(auth.database.users)
                 + [UserRecord(body.value, auth.database.hash(r.value.detail.apiKey))])
  {
    var session := ValidateToken(authorization, signed, clock);
    if session.Err? {
      return Err(session.status, session.detail);
    }
    if body.Err? {
      return Err(body.status, body.detail);
    }
    var result := auth.database.AddNewUser(body.value, envSalt, draws);
    if !result.acknowledged {
      return Err(result.status, MessageOf(result.detail));
    }
    r := Ok(result);
  }

  /** `PUT /admin/update`: an edit that changes nothing is raised with its
      status 200 as an error; a real edit answers with the updated record. */
  method Update(auth: AuthenticationService, authorization: Option<string>, signed: Option<Payload>, clock: int,
                body: Result<UserUpdate>) returns (r: Result<Reply>)
    requires auth.database.Valid()
    modifies auth.database
    ensures auth.database.Valid()
    ensures auth.database.events == old(auth.database.events)
    ensures auth.database.admins == old(auth.database.admins)
    ensures ValidateToken(authorization, signed, clock).Err? ==>
      r == Err(ValidateToken(authorization, signed, clock).status, ValidateToken(authorization, signed, clock).detail)
      && auth.database.users == old(auth.database.users)
    ensures ValidateToken(authorization, signed, clock).Ok? && body.Err? ==>
      r == Err(body.status, body.detail) && auth.database.users == old(auth.database.users)
    ensures ValidateToken(authorization, signed, clock).Ok? && body.Ok? ==>
      var upd := body.value;
      var found := FirstMatch(old(auth.database.users), ByUserId(upd.userId));
      && (found.None? ==> r == Err(404, "User does not exists.") && auth.database.users == old(auth.database.users))
      && (found.Some? && SameAsStored(old(auth.database.users)[found.value].user, upd) ==>
            r == Err(200, "User did not update. User's data is the same.")
            && auth.database.users == old(auth.database.users))
      && (found.Some? && !SameAsStored(old(auth.database.users)[found.value].user, upd) ==>
            && r.Ok? && r.value.status == 200 && r.value.detail.UserFound?
            && r.value.detail.data == ApplyUpdate(old(auth.database.users)[found.value].user, upd)
            && auth.database.users == old(auth.database.users)[found.value :=
                 old(auth.database.users)[found.value].(user := ApplyUpdate(old(auth.database.users)[found.value].user, upd))])
  {
    var session := ValidateToken(authorization, signed, clock);
    if session.Err? {
      return Err(session.status, session.detail);
    }
    if body.Err? {
      return Err(body.status, body.detail);
    }
    var result := auth.database.EditUser(body.value);
    if !result.acknowledged {
      return Err(result.status, MessageOf(result.detail));
    }
    ghost var i := FirstMatch(old(auth.database.users), ByUserId(body.value.userId)).value;
    assert auth.database.users[i].user.profile.userId == body.value.userId;
    var shown := auth.database.RetrieveUser(body.value.userId);
    r := Ok(shown);
  }

  /** `GET /admin/get/{user_id}`: the stored user fields, or 404. */
  method GetUser(auth: AuthenticationService, authorization: Option<string>, signed: Option<Payload>, clock: int, userId: string)
    returns (r: Result<User>)
    ensures ValidateToken(authorization, signed, clock).Err? ==>
      r == Err(ValidateToken(authorization, signed, clock).status, ValidateToken(authorization, signed, clock).detail)
    ensures ValidateToken(authorization, signed, clock).Ok? ==>
      && (r.Ok? <==> exists i :: 0 <= i < |auth.database.users| && auth.database.users[i].user.profile.userId == userId)
      && (r.Ok? ==> r.value.profile.userId == userId && exists i :: 0 <= i < |auth.database.users| && auth.database.users[i].user == r.value)
      && (r.Err? ==> r == Err(404, "User did not exists."))
  {
    var session := ValidateToken(authorization, signed, clock);
    if session.Err? {
      return Err(session.status, session.detail);
    }
    var result := auth.database.RetrieveUser(userId);
    if !result.acknowledged {
      return Err(result.status, MessageOf(result.detail));
    }
    r := Ok(result.detail.data);
  }

  /** `DELETE /admin/delete/{user_id}`: the removed user's fields, or 404. */
  method DeleteUser(auth: AuthenticationService, authorization: Option<string>, signed: Option<Payload>, clock: int, userId: string)
    returns (r: Result<User>)
    requires auth.database.Valid()
    modifies auth.database
    ensures auth.database.Valid()
    ensures auth.database.events == old(auth.database.events)
    ensures auth.database.admins == old(auth.database.admins)
    ensures ValidateToken(authorization, signed, clock).Err? ==>
      r == Err(ValidateToken(authorization, signed, clock).status, ValidateToken(authorization, signed, clock).detail)
      && auth.database.users == old(auth.database.users)
    ensures ValidateToken(authorization, signed, clock).Ok? ==>
      var found := FirstMatch(old(auth.database.users), ByUserId(userId));
      && (found.None? ==> r == Err(404, "User did not exists.") && auth.database.users == old(auth.database.users))
      && (found.Some? ==>
            && r == Ok(old(auth.database.users)[found.value].user)
            && auth.database.users == old(auth.database.users)[..found.value] + old(auth.database.users)[found.value + 1..])
  {
    var session := ValidateToken(authorization, signed, clock);
    if session.Err? {
      return Err(session.status, session.detail);
    }
    var result := auth.database.DeleteUser(userId);
    if !result.acknowledged {
      return Err(result.status, MessageOf(result.detail));
    }
    r := Ok(result.detail.data);
  }
}
