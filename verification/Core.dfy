/** Tokens, their lifetimes and their verification: src/auth/core.rs.

    A string stands for the bytes of a Rust string, one `char` a byte. HMAC, JWT
    encoding, Argon2 and UUIDs are foreign code; what is kept of them is that a
    token carries the secret it was signed under, and a hash the password it was
    made from. */
module AuthCore {

  datatype Option<+T> = None | Some(value: T) {
    function GetOr(default: T): T {
      match this
      case Some(v) => v
      case None => default
    }
  }

  datatype Error =
    | EmptyUsername | WeakPassword | PasswordHashFailed | AlreadyExists | InvalidCredentials
    | TokenExpired | TokenInvalid | WrongKind | EncodeFailed | InvalidRefreshToken | UserNotFound
    | Database

  datatype Result<+T> = Ok(value: T) | Err(error: Error)

  // ---------------------------------Machine integers----------------------------------

  const TWO_63: int := 0x8000_0000_0000_0000
  const TWO_64: int := 0x1_0000_0000_0000_0000

  type u64 = x: int | 0 <= x < 0x1_0000_0000_0000_0000
  type i64 = x: int | -0x8000_0000_0000_0000 <= x < 0x8000_0000_0000_0000

  /** `x as i64` of an unsigned 64-bit integer: two's complement. */
  function AsI64(x: u64): i64 {
    if x < TWO_63 then x else x - TWO_64
  }

  /** Signed 64-bit addition with wrap-around. */
  function AddI64(a: i64, b: i64): i64 {
    var sum := a + b;
    if sum >= TWO_63 then sum - TWO_64 else if sum < -TWO_63 then sum + TWO_64 else sum
  }

  /** The `exp` claim: a `usize` sum, `usize` having 64 bits. */
  function ClaimExpiry(now: u64, ttl: u64): u64 {
    (now + ttl) % TWO_64
  }

  /** The `expires_at` column: an `i64` sum of two casts. */
  function RowExpiry(now: u64, ttl: u64): i64 {
    AddI64(AsI64(now), AsI64(ttl))
  }

  /** The two lifetimes are both the true sum exactly below 2^63. They are equal exactly if
      the 64-bit sum is below 2^63, whether or not it has wrapped around. */
  lemma LifetimesAgree(now: u64, ttl: u64)
    ensures ClaimExpiry(now, ttl) == now + ttl && RowExpiry(now, ttl) == now + ttl
            <==> now + ttl < TWO_63
    ensures ClaimExpiry(now, ttl) == RowExpiry(now, ttl) <==> (now + ttl) % TWO_64 < TWO_63
  {
  }

  /** Outside that range both are the sum modulo 2^64, the row's as a signed number. */
  lemma LifetimesWrap(now: u64, ttl: u64)
    ensures ClaimExpiry(now, ttl) in {now + ttl, now + ttl - TWO_64}
    ensures RowExpiry(now, ttl) in {now + ttl, now + ttl - TWO_64, now + ttl - 2 * TWO_64}
  {
  }

  // ---------------------------------Tokens----------------------------------

  type Uuid = string

  datatype Hash = Hash(password: string, salt: string)

  datatype TokenKind = Access | Refresh

  datatype Claims = Claims(sub: Uuid, username: string, exp: u64, iat: u64, jti: Uuid, kind: TokenKind)

  datatype Token = Jwt(secret: string, claims: Claims) | Malformed(text: string)

  /** A clone of `AuthConfig`, with the expiry leeway of the JWT library. */
  datatype Config = Config(secret: string, accessTtl: u64, refreshTtl: u64, leeway: nat)

  /** The claims of a token issued at `now`. */
  function Issue(userId: Uuid, username: string, now: u64, ttl: u64, jti: Uuid, kind: TokenKind): Claims {
    Claims(userId, username, ClaimExpiry(now, ttl), now, jti, kind)
  }

  /** Signature first, then expiry; the kind is not looked at. */
  function VerifyToken(token: Token, cfg: Config, now: u64): Result<Claims> {
    if token.Malformed? || token.secret != cfg.secret then Err(TokenInvalid)
    else if token.claims.exp + cfg.leeway < now then Err(TokenExpired)
    else Ok(token.claims)
  }

  /** A token of the kind `kind`, or the error a handler returns instead. */
  function VerifyKind(token: Token, cfg: Config, now: u64, kind: TokenKind): Result<Claims> {
    match VerifyToken(token, cfg, now)
    case Err(e) => Err(e)
    case Ok(claims) => if claims.kind == kind then Ok(claims) else Err(WrongKind)
  }

  /** The `AuthUser` extractor, from the bearer token on. */
  function Extract(token: Token, cfg: Config, now: u64): Result<Claims> {
    VerifyKind(token, cfg, now, Access)
  }

  datatype Identity = Identity(userId: Uuid, username: string)

  /** `GET /auth/me`: the answer comes from the claims alone. */
  function Me(claims: Claims): Identity {
    Identity(claims.sub, claims.username)
  }

  // ---------------------------------Config----------------------------------

  const DEFAULT_ACCESS_TTL: u64 := 900
  const DEFAULT_REFRESH_TTL: u64 := 604_800

  /** Token lifetimes given to the server builder, if any. */
  datatype Options = Options(accessTtl: Option<u64>, refreshTtl: Option<u64>, leeway: nat)

  /** The configuration every route of a built server sees. */
  function ConfigOf(opts: Options, secret: string): Config {
    Config(secret, opts.accessTtl.GetOr(DEFAULT_ACCESS_TTL), opts.refreshTtl.GetOr(DEFAULT_REFRESH_TTL), opts.leeway)
  }

  class AuthConfig {
    var secret: string
    var accessTokenTtlSecs: u64
    var refreshTokenTtlSecs: u64
    const leeway: nat

    constructor WithDefaults(leeway: nat)
      ensures Clone() == Config("", 900, 604_800, leeway)
    {
      secret, accessTokenTtlSecs, refreshTokenTtlSecs := "", DEFAULT_ACCESS_TTL, DEFAULT_REFRESH_TTL;
      this.leeway := leeway;
    }

    function Clone(): Config
      reads this
    {
      Config(secret, accessTokenTtlSecs, refreshTokenTtlSecs, leeway)
    }

    method SetAccessTokenTtl(secs: u64)
      modifies this`accessTokenTtlSecs
      ensures Clone() == old(Clone()).(accessTtl := secs)
    {
      accessTokenTtlSecs := secs;
    }

    method SetRefreshTokenTtl(secs: u64)
      modifies this`refreshTokenTtlSecs
      ensures Clone() == old(Clone()).(refreshTtl := secs)
    {
      refreshTokenTtlSecs := secs;
    }

    method SetSecret(value: string)
      modifies this`secret
      ensures Clone() == old(Clone()).(secret := value)
    {
      secret := value;
    }
  }
}
