/**
 * Token claims and the credential primitives of core/security.py. Password
 * hashing, verification and JWT signing are foreign libraries: they are
 * carried as uninterpreted functions in `Crypto`, and only the way the
 * claims handed to the signer are built is modelled.
 */
module Security {
  import opened Wrappers

  /** A claim value: a string such as `sub`, or an integer such as `exp` (epoch seconds). */
  datatype ClaimValue = CStr(s: string) | CNum(n: int)

  type Claims = map<string, ClaimValue>

  /** The signing algorithm passed to the JWT encoder. */
  const Algorithm: string := "HS256"

  /** The secret used when the environment does not set SECRET_KEY. */
  const DefaultSecretKey: string := "secret_key"

  /** Lifetime given to refresh tokens at sign-in: seven days in seconds. */
  const RefreshTokenLifetime: int := 7 * 24 * 60 * 60

  /** What the JWT encoder returns: a token, or the JWTError it raised. */
  datatype SignResult = Signed(token: string) | SignFailed(reason: string)

  /**
   * The foreign primitives: bcrypt hashing and verification, and JWT
   * encoding of claims under a key and an algorithm.
   */
  datatype Crypto = Crypto(
    hash: string -> string,
    verify: (string, string) -> bool,
    sign: (Claims, string, string) -> SignResult)

  /** SECRET_KEY as read from the process environment, with its fallback. */
  function SecretKey(env: map<string, string>): (key: string)
    ensures "SECRET_KEY" in env ==> key == env["SECRET_KEY"]
    ensures "SECRET_KEY" !in env ==> key == DefaultSecretKey
  {
    if "SECRET_KEY" in env then env["SECRET_KEY"] else DefaultSecretKey
  }

  /**
   * Only the SECRET_KEY variable matters, and an empty value is used as is
   * (`os.getenv` falls back only when the variable is unset).
   */
  lemma SecretKeyReadsOneVariable(env: map<string, string>, name: string, value: string)
    ensures name != "SECRET_KEY" ==> SecretKey(env[name := value]) == SecretKey(env)
    ensures SecretKey(env["SECRET_KEY" := value]) == value
  {
  }

  /** Python truthiness of `expires_in`: `None` and `0` are false. */
  predicate Truthy(expiresIn: Option<int>) {
    expiresIn.Some? && expiresIn.value != 0
  }

  /**
   * The claims that get signed: a copy of `data`, with `exp` set to
   * now + expires_in seconds when `expires_in` is truthy. The caller's
   * `data` is a value here, so it cannot be changed.
   */
  function TokenClaims(data: Claims, expiresIn: Option<int>, now: int): (c: Claims)
    ensures c.Keys == if Truthy(expiresIn) then data.Keys + {"exp"} else data.Keys
    ensures forall k :: k in data && (k != "exp" || !Truthy(expiresIn)) ==> c[k] == data[k]
    ensures Truthy(expiresIn) ==> c["exp"] == CNum(now + expiresIn.value)
  {
    if Truthy(expiresIn) then data["exp" := CNum(now + expiresIn.value)] else data
  }

  /**
   * create_access_token: sign the claims with HS256 under `secretKey`; a
   * signing error is passed on to the caller, not swallowed.
   */
  function CreateAccessToken(crypto: Crypto, secretKey: string, data: Claims,
                             expiresIn: Option<int>, now: int): (r: Result<string, string>)
    ensures r.Success? <==> crypto.sign(TokenClaims(data, expiresIn, now), secretKey, Algorithm).Signed?
    ensures r.Success? ==> r.value == crypto.sign(TokenClaims(data, expiresIn, now), secretKey, Algorithm).token
    ensures r.Failure? ==> r.error == crypto.sign(TokenClaims(data, expiresIn, now), secretKey, Algorithm).reason
  {
    match crypto.sign(TokenClaims(data, expiresIn, now), secretKey, Algorithm)
    case Signed(t) => Success(t)
    case SignFailed(e) => Failure(e)
  }

  /** The claims of the two tokens issued at sign-in. */
  function SubjectClaims(email: string): Claims {
    map["sub" := CStr(email)]
  }

  /**
   * The access token carries exactly `{"sub": email}` and never expires;
   * the refresh token carries `sub` and `exp == now + 604800`.
   */
  lemma SignInClaims(email: string, now: int)
    ensures TokenClaims(SubjectClaims(email), None, now) == map["sub" := CStr(email)]
    ensures TokenClaims(SubjectClaims(email), Some(RefreshTokenLifetime), now)
            == map["sub" := CStr(email), "exp" := CNum(now + 604800)]
  {
  }

  /** A zero lifetime is falsy: it adds no `exp`, and an `exp` already in `data` is kept. */
  lemma ZeroLifetimeAddsNoExpiry(data: Claims, now: int)
    ensures TokenClaims(data, Some(0), now) == data
    ensures TokenClaims(data, None, now) == data
  {
  }

  /** A truthy lifetime overwrites an `exp` already present in `data`. */
  lemma TruthyLifetimeOverwritesExpiry(data: Claims, ttl: int, now: int)
    requires "exp" in data && ttl != 0
    ensures TokenClaims(data, Some(ttl), now)["exp"] == CNum(now + ttl)
    ensures |TokenClaims(data, Some(ttl), now)| == |data|
  {
    assert TokenClaims(data, Some(ttl), now).Keys == data.Keys;
  }
}
