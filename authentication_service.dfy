/** Credential checks: the `Authorization: Bearer <token>` header, API-key
    authentication against the store, the initialisation token, the decoding
    and expiry decisions on a session token, and token issuing. */
module Authentication {
  import opened Wrappers
  import opened Calendar
  import opened Schema
  import opened DatabaseUtils
  import opened Database

  /** The settings of `AuthenticationConfig` the service reads. */
  datatype AuthConfig = AuthConfig(
    jwtSecretKey: string,
    jwtRefreshSecretKey: string,
    jwtAlgorithm: string,
    accessTokenExpireMinute: int,
    refreshTokenExpireMinute: int,
    initializationToken: string)

  /** Defaults when the environment sets nothing. */
  const DefaultAlgorithm: string := "HS256"
  const DefaultAccessTokenExpireMinute: int := 30
  const DefaultRefreshTokenExpireMinute: int := 60 * 24 * 7
  const DefaultInitializationToken: string := "admin"

  const BearerPrefix: string := "Bearer "
  const InvalidAuthorizationHeader: string := "Invalid authorization header"

  /** The caller identity handed to the handlers: the stored record minus its
      password (and minus `_id` and `acknowledged`), still carrying the key digest. */
  datatype Caller = Caller(profile: Profile, apiKey: string)

  function CallerOf(rec: UserRecord): (c: Caller)
    ensures c.profile == rec.user.profile && c.apiKey == rec.apiKey
  {
    Caller(rec.user.profile, rec.apiKey)
  }

  function IsSpace(c: char): bool {
    c == ' '
  }

  /** Python's `s.split(" ")`: the pieces between single spaces, empty pieces kept. */
  function Split(s: string): (parts: seq<string>)
    ensures |parts| >= 1
    decreases |s|
  {
    match FirstMatch(s, IsSpace)
    case None => [s]
    case Some(k) => [s[..k]] + Split(s[k + 1..])
  }

  /** The first piece of a split runs up to the first space, or to the end. */
  lemma SplitHead(s: string)
    ensures var h := Split(s)[0];
      && h <= s && ' ' !in h
      && (|h| == |s| || s[|h|] == ' ')
  {
    var h := Split(s)[0];
    match FirstMatch(s, IsSpace)
    case None =>
    case Some(k) =>
      assert h == s[..k];
      assert forall j :: 0 <= j < k ==> h[j] == s[j] && !IsSpace(s[j]);
  }

  /** Splitting `"Bearer " + rest` yields "Bearer" and then the pieces of `rest`. */
  lemma SplitAfterBearer(rest: string)
    ensures Split(BearerPrefix + rest) == ["Bearer"] + Split(rest)
  {
    var s := BearerPrefix + rest;
    assert s[6] == ' ';
    assert forall j :: 0 <= j < 6 ==> s[j] != ' ';
    var m := FirstMatch(s, IsSpace);
    assert m == Some(6);
    assert s[..6] == "Bearer";
    assert s[7..] == rest;
  }

  function StartsWith(s: string, prefix: string): bool {
    prefix <= s
  }

  /** `_get_api_key`: 401 when the header is missing or does not start with
      "Bearer "; otherwise the text after the prefix up to the next space. */
  function GetApiKey(authorization: Option<string>): (r: Result<string>)
    ensures r.Err? <==> authorization.None? || !StartsWith(authorization.value, BearerPrefix)
    ensures r.Err? ==> r.status == 401 && r.detail == InvalidAuthorizationHeader
    ensures r.Ok? ==>
      var rest := authorization.value[|BearerPrefix|..];
      && r.value <= rest && ' ' !in r.value
      && (|r.value| == |rest| || rest[|r.value|] == ' ')
  {
    if authorization.None? || !StartsWith(authorization.value, BearerPrefix) then
      Err(401, InvalidAuthorizationHeader)
    else
      var rest := authorization.value[|BearerPrefix|..];
      assert authorization.value == BearerPrefix + rest;
      SplitAfterBearer(rest);
      SplitHead(rest);
      Ok(Split(authorization.value)[1])
  }

  /** The bare prefix yields the empty token. */
  lemma GetApiKeyOfBarePrefix()
    ensures GetApiKey(Some(BearerPrefix)) == Ok("")
  {
    var r := GetApiKey(Some(BearerPrefix));
    assert BearerPrefix[|BearerPrefix|..] == "";
  }

  /** Whatever follows a further space is dropped. */
  lemma GetApiKeyDropsTail(token: string, tail: string)
    requires ' ' !in token
    ensures GetApiKey(Some(BearerPrefix + token + " " + tail)) == Ok(token)
  {
    var h := BearerPrefix + token + " " + tail;
    var rest := h[|BearerPrefix|..];
    assert rest == token + " " + tail;
    var r := GetApiKey(Some(h));
    assert BearerPrefix <= h;
    assert r.Ok?;
    var v := r.value;
    assert v <= rest && ' ' !in v;
    assert forall j :: 0 <= j < |v| ==> rest[j] == v[j] != ' ';
    assert forall j :: 0 <= j < |token| ==> rest[j] == token[j] != ' ';
    assert rest[|token|] == ' ';
    assert |v| == |token|;
    assert v == rest[..|token|] == token;
  }

  const NotAuthenticated: string := "Not authenticated"

  /** `str.lower` on the letters that can spell "bearer". */
  function LowerAscii(c: char): (l: char)
    ensures 'A' <= c <= 'Z' ==> l as int == c as int + 32
    ensures !('A' <= c <= 'Z') ==> l == c
  {
    if 'A' <= c <= 'Z' then (c as int + 32) as char else c
  }

  /** The scheme word equals "bearer" up to letter case. */
  predicate IsBearerScheme(scheme: string) {
    |scheme| == 6 && forall i :: 0 <= i < 6 ==> LowerAscii(scheme[i]) == "bearer"[i]
  }

  /** The token the session scheme (`OAuth2PasswordBearer`) hands to
      `validate_token`: the header is cut at its first space, the part before
      it must be "bearer" in any letter case, and the rest is the token;
      a missing or empty header or another scheme yields nothing. */
  function BearerToken(authorization: Option<string>): (t: Option<string>)
    ensures t.Some? <==>
      && authorization.Some? && |authorization.value| >= 6
      && IsBearerScheme(authorization.value[..6])
      && (|authorization.value| == 6 || authorization.value[6] == ' ')
    ensures t.Some? && |authorization.value| == 6 ==> t.value == ""
    ensures t.Some? && |authorization.value| > 6 ==> t.value == authorization.value[7..]
  {
    if authorization.None? then None
    else
      var s := authorization.value;
      var (scheme, param) := match FirstMatch(s, IsSpace)
        case None => (s, "")
        case Some(k) => (s[..k], s[k + 1..]);
      if s == "" || !IsBearerScheme(scheme) then None
      else
        assert forall i :: 0 <= i < 6 ==> s[i] != ' ' by {
          forall i | 0 <= i < 6 ensures s[i] != ' ' {
            assert scheme[i] == s[i];
          }
        }
        Some(param)
  }

  const CouldNotValidate: string := "Could not validate credentials"
  const TokenExpired: string := "Token expired"
  const MicrosPerSecond: int := 1000000

  /** The outcome of python-jose's `jwt.decode` with its default options. */
  datatype Decoded = Verified(payload: Payload) | Expired | Invalid

  /** `jwt.decode`: `signed` is the outcome of the signature check (`None`
      when the token is malformed or badly signed); then the `exp` claim is
      checked against the clock truncated to whole seconds, with no leeway.
      `clock` is the instant in microseconds. Both failures are `JWTError`s. */
  function JoseDecode(signed: Option<Payload>, clock: int): (d: Decoded)
    ensures d.Invalid? <==> signed.None?
    ensures d.Expired? <==> signed.Some? && signed.value.exp < clock / MicrosPerSecond
    ensures d.Verified? ==> d.payload == signed.value
  {
    match signed
    case None => Invalid
    case Some(payload) =>
      if payload.exp < clock / MicrosPerSecond then Expired else Verified(payload)
  }

  /** `validate_token` at the instant `clock` (microseconds): without a bearer
      token the scheme answers 401 before the body runs; a token `jwt.decode`
      refuses, badly signed or expired by its own check, gives 403; the
      handler's own comparison `exp < now` gives 401; otherwise the claims. */
  function ValidateToken(authorization: Option<string>, signed: Option<Payload>, clock: int): (r: Result<Payload>)
    ensures BearerToken(authorization).None? ==> r == Err(401, NotAuthenticated)
    ensures r == Err(403, CouldNotValidate) <==>
      BearerToken(authorization).Some? && (signed.None? || signed.value.exp < clock / MicrosPerSecond)
    ensures r == Err(401, TokenExpired) <==>
      && BearerToken(authorization).Some? && signed.Some?
      && signed.value.exp == clock / MicrosPerSecond && clock % MicrosPerSecond != 0
    ensures r.Ok? <==> BearerToken(authorization).Some? && signed.Some? && clock <= signed.value.exp * MicrosPerSecond
    ensures r.Ok? ==> r.value == signed.value
  {
    if BearerToken(authorization).None? then Err(401, NotAuthenticated)
    else match JoseDecode(signed, clock)
      case Invalid => Err(403, CouldNotValidate)
      case Expired => Err(403, CouldNotValidate)
      case Verified(payload) =>
        if payload.exp * MicrosPerSecond < clock then Err(401, TokenExpired) else Ok(payload)
  }

  /** At a whole second a token expiring exactly then is still accepted, and
      one that expired a second earlier is refused by `jwt.decode` with 403. */
  lemma ExpiryBoundary(authorization: Option<string>, payload: Payload, now: Timestamp)
    requires BearerToken(authorization).Some?
    ensures payload.exp == now ==> ValidateToken(authorization, Some(payload), now * MicrosPerSecond) == Ok(payload)
    ensures payload.exp == now - 1 ==>
      ValidateToken(authorization, Some(payload), now * MicrosPerSecond) == Err(403, CouldNotValidate)
  {
    assert now * MicrosPerSecond / MicrosPerSecond == now;
  }

  /** The handler's "Token expired" answer is never given when the clock
      reads a whole second: `jwt.decode` has already refused every token the
      handler's comparison would call expired. */
  lemma TokenExpiredNeedsFraction(authorization: Option<string>, signed: Option<Payload>, now: Timestamp)
    ensures ValidateToken(authorization, signed, now * MicrosPerSecond) != Err(401, TokenExpired)
  {
    assert (now * MicrosPerSecond) % MicrosPerSecond == 0;
  }

  /** `validate_token` as evidently intended: the token is decoded with
      `options={"verify_exp": False}`, so the handler's own comparison decides
      expiry and answers 401 "Token expired". */
  function ValidateTokenIntended(authorization: Option<string>, signed: Option<Payload>, clock: int): (r: Result<Payload>)
    ensures BearerToken(authorization).None? ==> r == Err(401, NotAuthenticated)
    ensures r == Err(403, CouldNotValidate) <==> BearerToken(authorization).Some? && signed.None?
    ensures r == Err(401, TokenExpired) <==>
      BearerToken(authorization).Some? && signed.Some? && signed.value.exp * MicrosPerSecond < clock
  {
    if BearerToken(authorization).None? then Err(401, NotAuthenticated)
    else match signed
      case None => Err(403, CouldNotValidate)
      case Some(payload) =>
        if payload.exp * MicrosPerSecond < clock then Err(401, TokenExpired) else Ok(payload)
  }

  /** The intended check accepts exactly the tokens the written one accepts,
      with the same claims; it differs only in answering 401 for expiry. */
  lemma IntendedAcceptsSameTokens(authorization: Option<string>, signed: Option<Payload>, clock: int)
    ensures ValidateTokenIntended(authorization, signed, clock).Ok? <==> ValidateToken(authorization, signed, clock).Ok?
    ensures ValidateTokenIntended(authorization, signed, clock).Ok? ==>
      ValidateTokenIntended(authorization, signed, clock) == ValidateToken(authorization, signed, clock)
    ensures ValidateToken(authorization, signed, clock) == Err(403, CouldNotValidate) && signed.Some? ==>
      ValidateTokenIntended(authorization, signed, clock) == Err(401, TokenExpired)
  {
    if BearerToken(authorization).Some? && signed.Some? && signed.value.exp < clock / MicrosPerSecond {
      assert signed.value.exp * MicrosPerSecond < clock;
    }
  }

  class AuthenticationService {
    const database: DatabaseService
    const config: AuthConfig

    constructor (database: DatabaseService, config: AuthConfig)
      ensures this.database == database && this.config == config
    {
      this.database := database;
      this.config := config;
    }

    /** `api_key_auth`: the header's token must hash to a stored key digest;
      the store's 401 is passed on, and on success the caller identity comes
      without the password. */
    method ApiKeyAuth(authorization: Option<string>) returns (r: Result<Caller>)
      ensures GetApiKey(authorization).Err? ==>
        r == Err(401, InvalidAuthorizationHeader)
      ensures GetApiKey(authorization).Ok? ==>
        var digest := database.hash(GetApiKey(authorization).value);
        && (r.Ok? <==> exists i :: 0 <= i < |database.users| && database.users[i].apiKey == digest)
        && (r.Ok? ==> r.value == CallerOf(database.users[FirstMatch(database.users, ByApiKey(digest)).value]))
        && (r.Err? ==> r == Err(401, ApiKeyNotValid))
    {
      var token := GetApiKey(authorization);
      if token.Err? {
        return Err(token.status, token.detail);
      }
      var found := database.VerifyApiKey(token.value);
      if found.Err? {
        return Err(found.status, found.detail);
      }
      r := Ok(CallerOf(found.value));
    }

    /** `init_key_auth`: passes exactly when the header's token equals the
      configured initialisation token. */
    function InitKeyAuth(initToken: Option<string>): (r: Result<bool>)
      ensures r.Ok? <==> GetApiKey(initToken).Ok? && GetApiKey(initToken).value == config.initializationToken
      ensures r.Ok? ==> r.value
      ensures r.Err? ==> r.status == 401
    {
      match GetApiKey(initToken)
      case Err(status, detail) => Err(status, detail)
      case Ok(token) =>
        if token == config.initializationToken then Ok(true)
        else Err(401, "Init token is not valid.")
    }

    /** `generate_access_token`: signed with the access key, living the access lifetime. */
    function GenerateAccessToken(subject: string, now: Timestamp): (t: Jwt)
      ensures t.key == config.jwtSecretKey && t.algorithm == config.jwtAlgorithm
      ensures t.payload == Payload(now + 60 * config.accessTokenExpireMinute, subject)
    {
      CreateAccessToken(config.jwtSecretKey, config.jwtAlgorithm, config.accessTokenExpireMinute, subject, None, now)
    }

    /** `generate_refresh_token`: signed with the refresh key, living the refresh lifetime. */
    function GenerateRefreshToken(subject: string, now: Timestamp): (t: Jwt)
      ensures t.key == config.jwtRefreshSecretKey && t.algorithm == config.jwtAlgorithm
      ensures t.payload == Payload(now + 60 * config.refreshTokenExpireMinute, subject)
    {
      CreateRefreshToken(config.jwtRefreshSecretKey, config.jwtAlgorithm, config.refreshTokenExpireMinute, subject, None, now)
    }
  }
}
