/** Key and token utilities: the digest comparison, the `mci-` API-key format,
    the random salt, and the JWT payloads for access and refresh tokens. */
module DatabaseUtils {
  import opened Wrappers
  import opened Calendar

  /** The one-way digest (a SHA-256 hex digest), left uninterpreted: nothing
      here assumes that different inputs give different digests. */
  type Hasher = string -> string

  const ApiKeyPrefix: string := "mci-"

  /** `verify_hashed_key`. */
  function VerifyHashedKey(hash: Hasher, apiKey: string, hashedApiKey: string): (ok: bool)
    ensures ok <==> hash(apiKey) == hashedApiKey
  {
    hash(apiKey) == hashedApiKey
  }

  /** Hashing a key and checking the key against that digest always agrees. */
  lemma VerifyHashedKeyRoundTrip(hash: Hasher, apiKey: string)
    ensures VerifyHashedKey(hash, apiKey, hash(apiKey))
  {
  }

  /** The lower-case ASCII letter a random draw selects. */
  function LowercaseLetter(draw: nat): (c: char)
    ensures 'a' <= c <= 'z'
  {
    (('a' as int) + draw % 26) as char
  }

  /** `gen_random_string`: the length drawn by `randint(5, 10)` and one letter
      draw per position are supplied by the caller as `draws`. */
  function GenRandomString(draws: seq<nat>): (s: string)
    requires 5 <= |draws| <= 10
    ensures 5 <= |s| <= 10 && |s| == |draws|
    ensures forall i :: 0 <= i < |s| ==> 'a' <= s[i] <= 'z'
  {
    seq(|draws|, i requires 0 <= i < |draws| => LowercaseLetter(draws[i]))
  }

  /** The salt `generate_api_key` uses: the `API_SALT` environment value when it
      is set and non-empty, a fresh random string otherwise. */
  function ApiSalt(envSalt: Option<string>, draws: seq<nat>): (salt: string)
    requires 5 <= |draws| <= 10
    ensures envSalt.Some? && envSalt.value != "" ==> salt == envSalt.value
    ensures !(envSalt.Some? && envSalt.value != "") ==>
      5 <= |salt| <= 10 && forall i :: 0 <= i < |salt| ==> 'a' <= salt[i] <= 'z'
  {
    if envSalt.Some? && envSalt.value != "" then envSalt.value else GenRandomString(draws)
  }

  /** `generate_api_key`: the prefix `mci-` followed by the digest of the user
      id with the salt appended. */
  function GenerateApiKey(hash: Hasher, userId: string, envSalt: Option<string>, draws: seq<nat>): (key: string)
    requires 5 <= |draws| <= 10
    ensures |key| >= |ApiKeyPrefix| && key[..|ApiKeyPrefix|] == ApiKeyPrefix
    ensures key[|ApiKeyPrefix|..] == hash(userId + ApiSalt(envSalt, draws))
  {
    ApiKeyPrefix + hash(userId + ApiSalt(envSalt, draws))
  }

  /** With `API_SALT` set, the key depends on the user id alone: the random
      draws make no difference. */
  lemma GenerateApiKeyDeterministic(hash: Hasher, userId: string, salt: string, draws1: seq<nat>, draws2: seq<nat>)
    requires salt != ""
    requires 5 <= |draws1| <= 10 && 5 <= |draws2| <= 10
    ensures GenerateApiKey(hash, userId, Some(salt), draws1) == GenerateApiKey(hash, userId, Some(salt), draws2)
    ensures GenerateApiKey(hash, userId, Some(salt), draws1) == ApiKeyPrefix + hash(userId + salt)
  {
  }

  /** The claims of a session token: expiry instant and subject. */
  datatype Payload = Payload(exp: Timestamp, sub: string)

  /** A signed token, kept symbolic: its claims, the key it was signed with
      and the algorithm named in its header. */
  datatype Jwt = Jwt(payload: Payload, key: string, algorithm: string)

  /** The claims `create_access_token` and `create_refresh_token` encode:
      the expiry is `now` plus the explicit lifetime when one is given, else
      plus the configured number of minutes. */
  function TokenPayload(now: Timestamp, expireMinutes: int, subject: string, expiresDelta: Option<int>): (p: Payload)
    ensures p.sub == subject
    ensures expiresDelta.Some? ==> p.exp == now + expiresDelta.value
    ensures expiresDelta.None? ==> p.exp == now + 60 * expireMinutes
  {
    var exp := if expiresDelta.Some? then now + expiresDelta.value
               else now + expireMinutes * SecondsPerMinute;
    Payload(exp, subject)
  }

  /** `create_access_token`. */
  function CreateAccessToken(jwtSecretKey: string, algorithm: string, accessTokenExpireMinutes: int,
                             subject: string, expiresDelta: Option<int>, now: Timestamp): (t: Jwt)
    ensures t.key == jwtSecretKey && t.algorithm == algorithm
    ensures t.payload == TokenPayload(now, accessTokenExpireMinutes, subject, expiresDelta)
  {
    Jwt(TokenPayload(now, accessTokenExpireMinutes, subject, expiresDelta), jwtSecretKey, algorithm)
  }

  /** `create_refresh_token`. */
  function CreateRefreshToken(jwtRefreshSecretKey: string, algorithm: string, refreshTokenExpireMinutes: int,
                              subject: string, expiresDelta: Option<int>, now: Timestamp): (t: Jwt)
    ensures t.key == jwtRefreshSecretKey && t.algorithm == algorithm
    ensures t.payload == TokenPayload(now, refreshTokenExpireMinutes, subject, expiresDelta)
  {
    Jwt(TokenPayload(now, refreshTokenExpireMinutes, subject, expiresDelta), jwtRefreshSecretKey, algorithm)
  }

  /** The two token builders differ only in the key and the lifetime passed in. */
  lemma AccessAndRefreshAgree(key: string, algorithm: string, minutes: int, subject: string,
                              expiresDelta: Option<int>, now: Timestamp)
    ensures CreateAccessToken(key, algorithm, minutes, subject, expiresDelta, now)
         == CreateRefreshToken(key, algorithm, minutes, subject, expiresDelta, now)
  {
  }
}
