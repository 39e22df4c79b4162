/** The user and usage store: a user table keyed by `user_id` and looked up by
    hashed API key, an admin table, and an append-only log of usage events,
    with the status-coded replies `DatabaseService` gives. MongoDB's
    `find_one`, `update_one` and `delete_one` act on the first matching
    document, so the collections are sequences in insertion order. */
module Database {
  import opened Wrappers
  import opened Calendar
  import opened Schema
  import opened DatabaseUtils

  /** A stored user: the validated `User` fields plus the digest of its API key. */
  datatype UserRecord = UserRecord(user: User, apiKey: string)

  /** A stored administrator: document id, user name and password digest. */
  datatype AdminRecord = AdminRecord(id: string, username: string, password: string)

  /** One accounted request (`metadata.user_id`, `metadata.endpoint`,
      `timestamp`, `request`). */
  datatype UsageEvent = UsageEvent(userId: string, endpoint: string, timestamp: Timestamp, cost: int)

  /** Which of the two quota counters an operation addresses. */
  datatype LimitKey = RequestLimit | FineTuneLimit

  /** What a reply carries besides its status and acknowledgement. */
  datatype Detail =
    | Message(text: string)
    | LimitIs(limit: int)              // "Limit is {limit}"
    | LimitUpdated(previous: int)      // "Limit has been updated. Limit: {previous}"
    | ApiKeyIssued(apiKey: string)     // the plaintext key, shown once
    | UserFound(data: User)
    | UserDeleted(data: User)

  /** The `{"status_code", "acknowledged", ...}` dictionaries the store returns. */
  datatype Reply = Reply(status: int, acknowledged: bool, detail: Detail)

  /** One row of the usage aggregation: a bucket and the summed cost in it. */
  datatype Group = Group(date: Bucket, sumRequest: int)

  const LimitSurpassed: string := "Limit has been surpassed. Contact adminstration."
  const ApiKeyNotValid: string := "API key is not valid"
  const UsernameNotValid: string := "Username is not valid"
  /** Status of an unhandled exception (a lookup on a document that is absent). */
  const InternalError: int := 500
  /** What a subscript of the absent document raises. */
  const NotSubscriptable: string := "'NoneType' object is not subscriptable"

  function Limit(p: Profile, key: LimitKey): int {
    match key
    case RequestLimit => p.requestLimit
    case FineTuneLimit => p.fineTuneLimit
  }

  /** The record with one quota counter set to `value` and nothing else changed. */
  function WithLimit(rec: UserRecord, key: LimitKey, value: int): (r: UserRecord)
    ensures Limit(r.user.profile, key) == value
    ensures r.apiKey == rec.apiKey && r.user.password == rec.user.password
    ensures var p, q := r.user.profile, rec.user.profile;
      p.userId == q.userId && p.name == q.name && p.permissions == q.permissions &&
      p.privilege == q.privilege &&
      (key == RequestLimit ==> p.fineTuneLimit == q.fineTuneLimit) &&
      (key == FineTuneLimit ==> p.requestLimit == q.requestLimit)
  {
    var p := rec.user.profile;
    var p' := match key
      case RequestLimit => p.(requestLimit := value)
      case FineTuneLimit => p.(fineTuneLimit := value);
    rec.(user := rec.user.(profile := p'))
  }

  /** The index of the first element satisfying `p`, as a first-match query finds it. */
  function FirstMatch<T>(s: seq<T>, p: T -> bool): (r: Option<nat>)
    ensures r.Some? ==> r.value < |s| && p(s[r.value])
    ensures r.Some? ==> forall j :: 0 <= j < r.value ==> !p(s[j])
    ensures r.None? ==> forall j :: 0 <= j < |s| ==> !p(s[j])
  {
    if |s| == 0 then None
    else if p(s[0]) then Some(0)
    else match FirstMatch(s[1..], p)
      case None => None
      case Some(i) => Some(i + 1)
  }

  /** The elements satisfying `p`, in order: each kept element occurs as often
      as in `s`, and nothing else is kept. */
  function Filter<T(!new)>(s: seq<T>, p: T -> bool): (r: seq<T>)
    ensures forall x :: x in r ==> p(x) && x in s
    ensures forall x :: x in s && p(x) ==> x in r
    ensures forall x :: p(x) ==> multiset(r)[x] == multiset(s)[x]
  {
    if |s| == 0 then []
    else
      var rest := Filter(s[1..], p);
      assert s == [s[0]] + s[1..];
      if p(s[0]) then [s[0]] + rest else rest
  }

  function ByApiKey(hashed: string): UserRecord -> bool {
    (rec: UserRecord) => rec.apiKey == hashed
  }

  function ByUserId(userId: string): UserRecord -> bool {
    (rec: UserRecord) => rec.user.profile.userId == userId
  }

  function ByUsername(username: string): AdminRecord -> bool {
    (a: AdminRecord) => a.username == username
  }

  /** No two stored users share a `user_id`. */
  ghost predicate UniqueUserIds(users: seq<UserRecord>) {
    forall i, j :: 0 <= i < j < |users| ==> users[i].user.profile.userId != users[j].user.profile.userId
  }

  /** `$set` of the supplied fields of a `UserUpdate` (the password and the key
      digest are not among them). */
  function ApplyUpdate(u: User, upd: UserUpdate): (r: User)
    ensures SameAsStored(r, upd)
    ensures r.password == u.password
    ensures upd.name.None? ==> r.profile.name == u.profile.name
    ensures upd.requestLimit.None? ==> r.profile.requestLimit == u.profile.requestLimit
    ensures upd.fineTuneLimit.None? ==> r.profile.fineTuneLimit == u.profile.fineTuneLimit
    ensures upd.permissions.None? ==> r.profile.permissions == u.profile.permissions
    ensures upd.privilege.None? ==> r.profile.privilege == u.profile.privilege
  {
    var p := u.profile;
    User(Profile(
      upd.userId,
      if upd.name.Some? then upd.name.value else p.name,
      if upd.requestLimit.Some? then upd.requestLimit.value else p.requestLimit,
      if upd.fineTuneLimit.Some? then upd.fineTuneLimit.value else p.fineTuneLimit,
      if upd.permissions.Some? then upd.permissions.value else p.permissions,
      if upd.privilege.Some? then upd.privilege.value else p.privilege),
      u.password)
  }

  /** Every supplied field of the update already holds in the user. */
  predicate SameAsStored(u: User, upd: UserUpdate) {
    var p := u.profile;
    && upd.userId == p.userId
    && (upd.name.Some? ==> upd.name.value == p.name)
    && (upd.requestLimit.Some? ==> upd.requestLimit.value == p.requestLimit)
    && (upd.fineTuneLimit.Some? ==> upd.fineTuneLimit.value == p.fineTuneLimit)
    && (upd.permissions.Some? ==> upd.permissions.value == p.permissions)
    && (upd.privilege.Some? ==> upd.privilege.value == p.privilege)
  }

  /** An update modifies nothing exactly when every supplied field already
      equals the stored one. */
  lemma ApplyUpdateNoOp(u: User, upd: UserUpdate)
    ensures ApplyUpdate(u, upd) == u <==> SameAsStored(u, upd)
  {
    if SameAsStored(u, upd) {
      assert ApplyUpdate(u, upd).profile == u.profile;
    }
  }

  /** Applying the same update twice is the same as applying it once. */
  lemma ApplyUpdateIdempotent(u: User, upd: UserUpdate)
    ensures ApplyUpdate(ApplyUpdate(u, upd), upd) == ApplyUpdate(u, upd)
    ensures SameAsStored(ApplyUpdate(u, upd), upd)
  {
  }

  /** Whether `get_ts_dates` matches an event: the given user and endpoint, at
      or after `lower`, and at or before `upper` when there is one. */
  predicate Matches(e: UsageEvent, userId: string, endpoint: string, lower: real, upper: Option<real>) {
    && e.userId == userId && e.endpoint == endpoint
    && e.timestamp as real >= lower
    && (upper.Some? ==> e.timestamp as real <= upper.value)
  }

  /** The `$match` stage: the matching events, in log order. */
  function InWindow(events: seq<UsageEvent>, userId: string, endpoint: string,
                    lower: real, upper: Option<real>): (kept: seq<UsageEvent>)
    ensures forall e :: e in kept <==> e in events && Matches(e, userId, endpoint, lower, upper)
  {
    Filter(events, (e: UsageEvent) => Matches(e, userId, endpoint, lower, upper))
  }

  /** The summed cost of the events that fall into bucket `b`. */
  function SumIn(events: seq<UsageEvent>, slice: Slice, b: Bucket): (sum: int)
    ensures !HasEventIn(events, slice, b) ==> sum == 0
    ensures (forall i :: 0 <= i < |events| ==> events[i].cost >= 0) ==> sum >= 0
    decreases |events|
  {
    if |events| == 0 then 0
    else
      var last := events[|events| - 1];
      var init := events[..|events| - 1];
      assert forall i :: 0 <= i < |init| ==> init[i] == events[i];
      SumIn(init, slice, b) + (if Truncate(last.timestamp, slice) == b then last.cost else 0)
  }

  /** Some event of `events` falls into bucket `b`. */
  predicate HasEventIn(events: seq<UsageEvent>, slice: Slice, b: Bucket) {
    exists i :: 0 <= i < |events| && Truncate(events[i].timestamp, slice) == b
  }

  /** The non-empty buckets of `events`, each once, in order of first occurrence. */
  function DistinctBuckets(events: seq<UsageEvent>, slice: Slice): (bs: seq<Bucket>)
    ensures forall i, j :: 0 <= i < j < |bs| ==> bs[i] != bs[j]
    ensures forall b :: b in bs <==> HasEventIn(events, slice, b)
  {
    if |events| == 0 then []
    else
      var init := events[..|events| - 1];
      var prev := DistinctBuckets(init, slice);
      var b := Truncate(events[|events| - 1].timestamp, slice);
      assert forall i :: 0 <= i < |init| ==> init[i] == events[i];
      assert forall c :: HasEventIn(events, slice, c) <==> HasEventIn(init, slice, c) || c == b;
      if b in prev then prev else prev + [b]
  }

  /** The bucket keys of the groups, in order. */
  function Dates(groups: seq<Group>): (ds: seq<Bucket>)
    ensures |ds| == |groups| && forall i :: 0 <= i < |groups| ==> ds[i] == groups[i].date
  {
    seq(|groups|, i requires 0 <= i < |groups| => groups[i].date)
  }

  /** The `$group` stage: one row per non-empty bucket with its summed cost. */
  function GroupsOf(events: seq<UsageEvent>, slice: Slice): (groups: seq<Group>)
    ensures forall i, j :: 0 <= i < j < |groups| ==> groups[i].date != groups[j].date
    ensures forall i :: 0 <= i < |groups| ==> groups[i].sumRequest == SumIn(events, slice, groups[i].date)
    ensures forall b :: b in Dates(groups) <==> HasEventIn(events, slice, b)
  {
    var bs := DistinctBuckets(events, slice);
    var groups := seq(|bs|, i requires 0 <= i < |bs| => Group(bs[i], SumIn(events, slice, bs[i])));
    assert Dates(groups) == bs;
    groups
  }

  /** The instant `now - days`, for a window width given in (fractional) days. */
  function DaysBefore(now: Timestamp, days: real): real {
    now as real - days * SecondsPerDay as real
  }

  /** The optional upper end of the window: applied only when `day_to` is
      given and truthy, so both an absent value and 0.0 leave it open. */
  function UpperBound(now: Timestamp, dayTo: Option<real>): (upper: Option<real>)
    ensures upper.Some? <==> dayTo.Some? && dayTo.value != 0.0
    ensures upper.Some? ==> upper.value == now as real - dayTo.value * 86400.0
  {
    if dayTo.Some? && dayTo.value != 0.0 then Some(DaysBefore(now, dayTo.value)) else None
  }

  /** One `check_limit` and, only when it answers 200, one `update_limit` of
      the same cost against the user holding the key digest. */
  function GuardedDebit(users: seq<UserRecord>, hashedApiKey: string, key: LimitKey, cost: int): (after: seq<UserRecord>)
    ensures |after| == |users|
    ensures forall j :: 0 <= j < |users| ==> after[j].apiKey == users[j].apiKey
    ensures FirstMatch(users, ByApiKey(hashedApiKey)).None? ==> after == users
    ensures FirstMatch(users, ByApiKey(hashedApiKey)).Some? ==>
      var i := FirstMatch(users, ByApiKey(hashedApiKey)).value;
      && (forall j :: 0 <= j < |users| && j != i ==> after[j] == users[j])
      && (after == users || Limit(after[i].user.profile, key) == Limit(users[i].user.profile, key) - cost >= 0)
      && (Limit(users[i].user.profile, key) >= cost ==> Limit(after[i].user.profile, key) == Limit(users[i].user.profile, key) - cost)
  {
    match FirstMatch(users, ByApiKey(hashedApiKey))
    case None => users
    case Some(i) =>
      var limit := Limit(users[i].user.profile, key);
      if limit < cost then users else users[i := WithLimit(users[i], key, limit - cost)]
  }

  /** A sequential run of guarded debits, one per cost. */
  function GuardedRun(users: seq<UserRecord>, hashedApiKey: string, key: LimitKey, costs: seq<int>): (after: seq<UserRecord>)
    ensures |after| == |users|
    ensures forall j :: 0 <= j < |users| ==> after[j].apiKey == users[j].apiKey
    ensures FirstMatch(users, ByApiKey(hashedApiKey)).None? ==> after == users
    ensures FirstMatch(users, ByApiKey(hashedApiKey)).Some? ==>
      forall j :: 0 <= j < |users| && j != FirstMatch(users, ByApiKey(hashedApiKey)).value ==> after[j] == users[j]
    decreases |costs|
  {
    if |costs| == 0 then users
    else
      GuardedDebitKeepsMatch(users, hashedApiKey, key, costs[0]);
      GuardedRun(GuardedDebit(users, hashedApiKey, key, costs[0]), hashedApiKey, key, costs[1..])
  }

  /** A debit keeps the key digest, so the same record is found again. */
  lemma GuardedDebitKeepsMatch(users: seq<UserRecord>, hashedApiKey: string, key: LimitKey, cost: int)
    ensures |GuardedDebit(users, hashedApiKey, key, cost)| == |users|
    ensures FirstMatch(GuardedDebit(users, hashedApiKey, key, cost), ByApiKey(hashedApiKey))
         == FirstMatch(users, ByApiKey(hashedApiKey))
  {
    var after := GuardedDebit(users, hashedApiKey, key, cost);
    assert forall j :: 0 <= j < |users| ==> after[j].apiKey == users[j].apiKey;
    FirstMatchSameKeys(users, after, hashedApiKey);
  }

  lemma {:induction false} FirstMatchSameKeys(a: seq<UserRecord>, b: seq<UserRecord>, hashedApiKey: string)
    requires |a| == |b|
    requires forall j :: 0 <= j < |a| ==> a[j].apiKey == b[j].apiKey
    ensures FirstMatch(a, ByApiKey(hashedApiKey)) == FirstMatch(b, ByApiKey(hashedApiKey))
  {
    if |a| > 0 && a[0].apiKey != hashedApiKey {
      FirstMatchSameKeys(a[1..], b[1..], hashedApiKey);
    }
  }

  /** Checking before each debit, with non-negative costs, never takes the
      counter below zero; a counter that starts below zero is never debited. */
  lemma {:induction false} GuardedRunNeverNegative(users: seq<UserRecord>, hashedApiKey: string, key: LimitKey, costs: seq<int>)
    requires forall j :: 0 <= j < |costs| ==> costs[j] >= 0
    requires FirstMatch(users, ByApiKey(hashedApiKey)).Some?
    ensures var i := FirstMatch(users, ByApiKey(hashedApiKey)).value;
      var after := GuardedRun(users, hashedApiKey, key, costs);
      && |after| == |users|
      && FirstMatch(after, ByApiKey(hashedApiKey)) == Some(i)
      && (Limit(users[i].user.profile, key) >= 0 ==> Limit(after[i].user.profile, key) >= 0)
      && (Limit(users[i].user.profile, key) < 0 ==> after == users)
    decreases |costs|
  {
    if |costs| > 0 {
      var next := GuardedDebit(users, hashedApiKey, key, costs[0]);
      GuardedDebitKeepsMatch(users, hashedApiKey, key, costs[0]);
      GuardedRunNeverNegative(next, hashedApiKey, key, costs[1..]);
    }
  }

  class DatabaseService {
    /** The digest used for API keys and admin passwords. */
    const hash: Hasher
    var users: seq<UserRecord>
    var admins: seq<AdminRecord>
    var events: seq<UsageEvent>

    ghost predicate Valid()
      reads this
    {
      UniqueUserIds(users)
    }

    constructor (hash: Hasher, admins: seq<AdminRecord>)
      ensures Valid()
      ensures this.hash == hash && users == [] && this.admins == admins && events == []
    {
      this.hash := hash;
      this.users := [];
      this.admins := admins;
      this.events := [];
    }

    /** `check_limit`: 429 when the counter of the user holding the key is below
      `cost`, 200 quoting the counter otherwise; no user holding the key is an
      unhandled lookup failure. Nothing is changed. */
    method CheckLimit(hashedApiKey: string, limitKey: LimitKey, cost: int) returns (r: Result<Reply>)
      ensures FirstMatch(users, ByApiKey(hashedApiKey)).None? ==> r == Err(InternalError, NotSubscriptable)
      ensures FirstMatch(users, ByApiKey(hashedApiKey)).Some? ==>
        var limit := Limit(users[FirstMatch(users, ByApiKey(hashedApiKey)).value].user.profile, limitKey);
        && r.Ok?
        && (r.value.status == 429 <==> limit < cost)
        && (r.value.acknowledged <==> cost <= limit)
        && (limit < cost ==> r.value.detail == Message(LimitSurpassed))
        && (cost <= limit ==> r.value == Reply(200, true, LimitIs(limit)))
    {
      var found := FirstMatch(users, ByApiKey(hashedApiKey));
      if found.None? {
        return Err(InternalError, NotSubscriptable);
      }
      var limit := Limit(users[found.value].user.profile, limitKey);
      if limit < cost {
        r := Ok(Reply(429, false, Message(LimitSurpassed)));
      } else {
        r := Ok(Reply(200, true, LimitIs(limit)));
      }
    }

    /** `update_limit`: the counter of the user holding the key becomes its old
      value minus `cost`, with no floor (a negative cost refunds); the reply
      quotes the value before the update. */
    method UpdateLimit(hashedApiKey: string, limitKey: LimitKey, cost: int) returns (r: Result<Reply>)
      requires Valid()
      modifies this
      ensures Valid()
      ensures events == old(events) && admins == old(admins)
      ensures FirstMatch(old(users), ByApiKey(hashedApiKey)).None? ==>
        r == Err(InternalError, NotSubscriptable) && users == old(users)
      ensures FirstMatch(old(users), ByApiKey(hashedApiKey)).Some? ==>
        var i := FirstMatch(old(users), ByApiKey(hashedApiKey)).value;
        var previous := Limit(old(users)[i].user.profile, limitKey);
        && users == old(users)[i := WithLimit(old(users)[i], limitKey, previous - cost)]
        && r == Ok(Reply(200, true, LimitUpdated(previous)))
    {
      var found := FirstMatch(users, ByApiKey(hashedApiKey));
      if found.None? {
        return Err(InternalError, NotSubscriptable);
      }
      var i := found.value;
      var previous := Limit(users[i].user.profile, limitKey);
      users := users[i := WithLimit(users[i], limitKey, previous - cost)];
      r := Ok(Reply(200, true, LimitUpdated(previous)));
    }

    /** `verify_api_key`: the first user whose stored digest equals the digest
      of `token`, or 401 when there is none. */
    method VerifyApiKey(token: string) returns (r: Result<UserRecord>)
      ensures r.Ok? <==> exists i :: 0 <= i < |users| && users[i].apiKey == hash(token)
      ensures r.Ok? ==> r.value in users && r.value.apiKey == hash(token)
      ensures r.Ok? ==> r.value == users[FirstMatch(users, ByApiKey(hash(token))).value]
      ensures r.Err? ==> r.status == 401 && r.detail == ApiKeyNotValid
    {
      var found := FirstMatch(users, ByApiKey(hash(token)));
      if found.Some? {
        r := Ok(users[found.value]);
      } else {
        r := Err(401, ApiKeyNotValid);
      }
    }

    /** `verify_admin`: the first admin with this user name, accepted when its
      stored digest equals the digest of `password`; its id is blanked. */
    method VerifyAdmin(username: string, password: string) returns (r: Result<AdminRecord>)
      ensures var found := FirstMatch(admins, ByUsername(username));
        r.Ok? <==> found.Some? && admins[found.value].password == hash(password)
      ensures r.Ok? ==> r.value.username == username && r.value.password == hash(password) && r.value.id == ""
      ensures r.Ok? ==> r.value == admins[FirstMatch(admins, ByUsername(username)).value].(id := "")
      ensures r.Err? ==> r.status == 401 && r.detail == UsernameNotValid
    {
      var found := FirstMatch(admins, ByUsername(username));
      if found.Some? && admins[found.value].password == hash(password) {
        r := Ok(admins[found.value].(id := ""));
      } else {
        r := Err(401, UsernameNotValid);
      }
    }

    /** `add_new_user`: 409 on a duplicate `user_id`, otherwise one new record
      whose stored digest is the digest of the returned plaintext key. */
    method AddNewUser(user: User, envSalt: Option<string>, draws: seq<nat>) returns (r: Reply)
      requires Valid()
      requires 5 <= |draws| <= 10
      modifies this
      ensures Valid()
      ensures events == old(events) && admins == old(admins)
      ensures (exists i :: 0 <= i < |old(users)| && old(users)[i].user.profile.userId == user.profile.userId) ==>
        r == Reply(409, false, Message("User already exists.")) && users == old(users)
      ensures (forall i :: 0 <= i < |old(users)| ==> old(users)[i].user.profile.userId != user.profile.userId) ==>
        && r.status == 201 && r.acknowledged && r.detail.ApiKeyIssued?
        && r.detail.apiKey == GenerateApiKey(hash, user.profile.userId, envSalt, draws)
        && users == old(users) + [UserRecord(user, hash(r.detail.apiKey))]
    {
      var found := FirstMatch(users, ByUserId(user.profile.userId));
      if found.Some? {
        return Reply(409, false, Message("User already exists."));
      }
      var apiKey := GenerateApiKey(hash, user.profile.userId, envSalt, draws);
      users := users + [UserRecord(user, hash(apiKey))];
      r := Reply(201, true, ApiKeyIssued(apiKey));
    }

    /** `edit_user`: 404 for an unknown user; 200 unacknowledged and no change
      when every supplied field already holds; otherwise only the supplied
      fields of that one user are overwritten. */
    method EditUser(upd: UserUpdate) returns (r: Reply)
      requires Valid()
      modifies this
      ensures Valid()
      ensures events == old(events) && admins == old(admins)
      ensures FirstMatch(old(users), ByUserId(upd.userId)).None? ==>
        r == Reply(404, false, Message("User does not exists.")) && users == old(users)
      ensures FirstMatch(old(users), ByUserId(upd.userId)).Some? ==>
        var i := FirstMatch(old(users), ByUserId(upd.userId)).value;
        var u := old(users)[i].user;
        && (SameAsStored(u, upd) ==>
              r == Reply(200, false, Message("User did not update. User's data is the same.")) && users == old(users))
        && (!SameAsStored(u, upd) ==>
              r == Reply(200, true, Message("User updated.")) &&
              users == old(users)[i := old(users)[i].(user := ApplyUpdate(u, upd))])
    {
      var found := FirstMatch(users, ByUserId(upd.userId));
      if found.None? {
        return Reply(404, false, Message("User does not exists."));
      }
      var i := found.value;
      var updated := ApplyUpdate(users[i].user, upd);
      ApplyUpdateNoOp(users[i].user, upd);
      if updated == users[i].user {
        return Reply(200, false, Message("User did not update. User's data is the same."));
      }
      users := users[i := users[i].(user := updated)];
      r := Reply(200, true, Message("User updated."));
    }

    /** `retrieve_user` by `user_id` (`find_one`): 404 when absent, else the
      stored fields of the first record with that id, without the key digest. */
    method RetrieveUser(userId: string) returns (r: Reply)
      ensures (forall i :: 0 <= i < |users| ==> users[i].user.profile.userId != userId) <==> r.status == 404
      ensures r.status == 404 ==> r == Reply(404, false, Message("User did not exists."))
      ensures r.status != 404 ==>
        && r.status == 200 && r.acknowledged && r.detail.UserFound?
        && r.detail.data.profile.userId == userId
        && exists i :: 0 <= i < |users| && users[i].user == r.detail.data
      ensures r.status != 404 ==>
        && FirstMatch(users, ByUserId(userId)).Some?
        && r.detail.data == users[FirstMatch(users, ByUserId(userId)).value].user
    {
      var found := FirstMatch(users, ByUserId(userId));
      if found.None? {
        return Reply(404, false, Message("User did not exists."));
      }
      r := Reply(200, true, UserFound(users[found.value].user));
    }

    /** `delete_user` by `user_id`: 404 and no change when absent, else exactly
      that record is removed; the usage events are left as they are. */
    method DeleteUser(userId: string) returns (r: Reply)
      requires Valid()
      modifies this
      ensures Valid()
      ensures events == old(events) && admins == old(admins)
      ensures FirstMatch(old(users), ByUserId(userId)).None? ==>
        r == Reply(404, false, Message("User did not exists.")) && users == old(users)
      ensures FirstMatch(old(users), ByUserId(userId)).Some? ==>
        var i := FirstMatch(old(users), ByUserId(userId)).value;
        && r == Reply(200, true, UserDeleted(old(users)[i].user))
        && users == old(users)[..i] + old(users)[i + 1..]
        && forall j :: 0 <= j < |users| ==> users[j].user.profile.userId != userId
    {
      var found := FirstMatch(users, ByUserId(userId));
      if found.None? {
        return Reply(404, false, Message("User did not exists."));
      }
      var i := found.value;
      var data := users[i].user;
      users := users[..i] + users[i + 1..];
      r := Reply(200, true, UserDeleted(data));
    }

    /** `add_request_ts_record`: one event stamped `now` appended to the log. */
    method AddRequestTsRecord(userId: string, endpoint: string, cost: int, now: Timestamp) returns (r: Reply)
      modifies this
      ensures users == old(users) && admins == old(admins)
      ensures events == old(events) + [UsageEvent(userId, endpoint, now, cost)]
      ensures r == Reply(200, true, Message("Record has been added."))
    {
      events := events + [UsageEvent(userId, endpoint, now, cost)];
      r := Reply(200, true, Message("Record has been added."));
    }

    /** `delete_request_ts_record`: every event of the user is removed and every
      other event is kept. (The reply text is the one of the append.) */
    method DeleteRequestTsRecord(userId: string) returns (r: Reply)
      modifies this
      ensures users == old(users) && admins == old(admins)
      ensures forall e :: e in events ==> e.userId != userId
      ensures forall e: UsageEvent :: e.userId != userId ==> multiset(events)[e] == multiset(old(events))[e]
      ensures r == Reply(200, true, Message("Record has been added."))
    {
      events := Filter(events, (e: UsageEvent) => e.userId != userId);
      r := Reply(200, true, Message("Record has been added."));
    }

    /** `get_ts_dates`: the events of the user and endpoint from `now - dayFrom`
      days on (and up to `now - dayTo` days only when `dayTo` is given and
      non-zero), grouped by calendar bucket with the cost summed per bucket. */
    function GetTsDates(userId: string, endpoint: string, dayFrom: real, dayTo: Option<real>,
                        slice: Slice, now: Timestamp): (groups: seq<Group>)
      reads this
      ensures var kept := InWindow(events, userId, endpoint, DaysBefore(now, dayFrom), UpperBound(now, dayTo));
        && (forall i, j :: 0 <= i < j < |groups| ==> groups[i].date != groups[j].date)
        && (forall i :: 0 <= i < |groups| ==> groups[i].sumRequest == SumIn(kept, slice, groups[i].date))
        && (forall b :: b in Dates(groups) <==> HasEventIn(kept, slice, b))
    {
      GroupsOf(InWindow(events, userId, endpoint, DaysBefore(now, dayFrom), UpperBound(now, dayTo)), slice)
    }

    /** `find_all_users`: the `user_id` of every stored user, in store order. */
    method FindAllUsers() returns (ids: seq<string>)
      ensures |ids| == |users|
      ensures forall i :: 0 <= i < |users| ==> ids[i] == users[i].user.profile.userId
    {
      ids := [];
      for k := 0 to |users|
        invariant |ids| == k
        invariant forall i :: 0 <= i < k ==> ids[i] == users[i].user.profile.userId
      {
        ids := ids + [users[k].user.profile.userId];
      }
    }
  }
}
