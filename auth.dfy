/** Token issuing, request authentication, the role rule and the token
    blacklist of backend/src/auth.rs.  Signing and signature checking are
    oracles: `encode` for `jsonwebtoken::encode`, `verify` for
    `verify_jwt`. */
module AuthCore {
  import opened Wrappers

  /** `TokenType`. */
  datatype TokenType = Access | Refresh

  /** `Claims`: subject, role, expiry (the `exp` claim of section 4.1.4 of
      RFC 7519, in seconds since the epoch) and token type. */
  datatype Claims = Claims(sub: string, role: string, exp: nat, tokenType: TokenType)

  /** `Duration::hours(1)` and `Duration::days(7)`, in seconds. */
  const ACCESS_LIFETIME: nat := 3600
  const REFRESH_LIFETIME: nat := 604800

  /** 2^64: `usize` on a 64-bit target. */
  const USIZE_MODULUS: nat := 0x1_0000_0000_0000_0000

  /** `i64 as usize`: two's-complement reinterpretation, i.e. reduction
      modulo 2^64; a non-negative timestamp is kept as it is. */
  function ToUsize(x: int): (r: nat)
    ensures r < USIZE_MODULUS
    ensures 0 <= x < USIZE_MODULUS ==> r == x
    ensures (r - x) % USIZE_MODULUS == 0
  {
    x % USIZE_MODULUS
  }

  function Lifetime(t: TokenType): nat {
    match t
    case Access => ACCESS_LIFETIME
    case Refresh => REFRESH_LIFETIME
  }

  /** The claims `create_jwt` signs, `now` being the current Unix time. */
  function JwtClaims(sub: string, role: string, t: TokenType, now: int): (c: Claims)
    ensures c.sub == sub && c.role == role && c.tokenType == t
    ensures c.exp == ToUsize(now + Lifetime(t))
  {
    Claims(sub, role, ToUsize(now + Lifetime(t)), t)
  }

  /** `create_jwt`: sign the claims; a signing failure is returned. */
  function CreateJwt(sub: string, role: string, t: TokenType, now: int,
                     encode: Claims -> Result<string, string>): Result<string, string>
  {
    encode(JwtClaims(sub, role, t, now))
  }

  /** Access tokens expire one hour after issue, refresh tokens seven days
      after, so for the same issue time a refresh token outlives an access
      token (for any time at which the expiry fits in a `usize`). */
  lemma TokenLifetimes(sub: string, role: string, now: int)
    requires 0 <= now && now + REFRESH_LIFETIME < USIZE_MODULUS
    ensures JwtClaims(sub, role, Access, now).exp == now + 3600
    ensures JwtClaims(sub, role, Refresh, now).exp == now + 604800
    ensures JwtClaims(sub, role, Access, now).exp < JwtClaims(sub, role, Refresh, now).exp
  {
  }

  /** An octet of a header value. */
  type Byte = b: int | 0 <= b < 256

  /** The octets `HeaderValue::to_str` accepts: visible ASCII and tab. */
  predicate VisibleAscii(b: Byte) {
    b == 9 || 32 <= b <= 126
  }

  /** `HeaderValue::to_str`: the value as text when every octet is visible
      ASCII or a tab, nothing otherwise. */
  function HeaderToStr(h: seq<Byte>): (r: Option<string>)
    ensures r.Some? <==> forall i :: 0 <= i < |h| ==> VisibleAscii(h[i])
    ensures r.Some? ==> |r.value| == |h| && forall i :: 0 <= i < |h| ==> r.value[i] as int == h[i]
  {
    if forall i :: 0 <= i < |h| ==> VisibleAscii(h[i])
    then Some(seq(|h|, i requires 0 <= i < |h| => h[i] as char))
    else None
  }

  /** The authentication scheme of section 2.1 of RFC 6750, matched as the
      code does: exactly, case included, with one space. */
  const BEARER_PREFIX := "Bearer "

  /** `starts_with("Bearer ")` and `&auth_str[7..]`. */
  function ExtractBearer(s: string): (r: Option<string>)
    ensures r.Some? <==> |s| >= 7 && s[..7] == BEARER_PREFIX
    ensures r.Some? ==> s == BEARER_PREFIX + r.value
  {
    if |s| >= 7 && s[..7] == BEARER_PREFIX then Some(s[7..]) else None
  }

  /** Prefixing the scheme and extracting are inverse. */
  lemma BearerRoundTrip(token: string)
    ensures ExtractBearer(BEARER_PREFIX + token) == Some(token)
  {
    assert (BEARER_PREFIX + token)[..7] == BEARER_PREFIX;
    assert (BEARER_PREFIX + token)[7..] == token;
  }

  /** The match is case-sensitive: a lower-case scheme is not accepted. */
  lemma BearerIsCaseSensitive(token: string)
    ensures ExtractBearer("bearer " + token) == None
  {
    assert ("bearer " + token)[0] == 'b';
  }

  /** What `verify_jwt` can report. */
  datatype VerifyOutcome = Verified(claims: Claims) | ExpiredSignature | InvalidToken

  /** The errors the access-control code raises, by HTTP status. */
  datatype AuthError = Unauthorized(message: string) | Forbidden(message: string) | Internal(message: string)

  const NO_HEADER := "No authorization header"
  const INVALID_HEADER := "Invalid authorization header"
  const TOKEN_INVALIDATED := "Token has been invalidated"
  const INVALID_TOKEN_TYPE := "Invalid token type"
  const TOKEN_EXPIRED := "Token has expired"
  const INVALID_TOKEN := "Invalid token"

  /** The first two checks of `check_auth`: the header must be present,
      textual and of the Bearer scheme; the token follows the prefix. */
  function BearerToken(header: Option<seq<Byte>>): (r: Result<string, AuthError>)
    ensures header.None? <==> r == Err(Unauthorized(NO_HEADER))
    ensures r.Ok? <==>
              header.Some? && HeaderToStr(header.value).Some? &&
              ExtractBearer(HeaderToStr(header.value).value).Some?
    ensures r.Ok? ==> Some(r.value) == ExtractBearer(HeaderToStr(header.value).value)
    ensures r.Err? && header.Some? ==> r == Err(Unauthorized(INVALID_HEADER))
  {
    match header
    case None => Err(Unauthorized(NO_HEADER))
    case Some(h) =>
      match HeaderToStr(h)
      case None => Err(Unauthorized(INVALID_HEADER))
      case Some(s) =>
        match ExtractBearer(s)
        case None => Err(Unauthorized(INVALID_HEADER))
        case Some(token) => Ok(token)
  }

  /** `check_auth`: header, blacklist, signature, token type, in that
      order.  `blacklisted` is `is_token_blacklisted`, whose errors
      propagate.  The result is Ok exactly when the header carries a bearer
      token that is not blacklisted and verifies as an access token. */
  function CheckAuth(
    header: Option<seq<Byte>>,
    blacklisted: string -> Result<bool, AuthError>,
    verify: string -> VerifyOutcome): (r: Result<Claims, AuthError>)
    ensures r.Ok? <==>
              && BearerToken(header).Ok?
              && blacklisted(BearerToken(header).value) == Ok(false)
              && verify(BearerToken(header).value).Verified?
              && verify(BearerToken(header).value).claims.tokenType == Access
    ensures r.Ok? ==> r.value == verify(BearerToken(header).value).claims
  {
    match BearerToken(header)
    case Err(e) => Err(e)
    case Ok(token) =>
      match blacklisted(token)
      case Err(e) => Err(e)
      case Ok(true) => Err(Unauthorized(TOKEN_INVALIDATED))
      case Ok(false) =>
        match verify(token)
        case Verified(claims) =>
          if claims.tokenType != Access then Err(Unauthorized(INVALID_TOKEN_TYPE)) else Ok(claims)
        case ExpiredSignature => Err(Unauthorized(TOKEN_EXPIRED))
        case InvalidToken => Err(Unauthorized(INVALID_TOKEN))
  }

  /** A blacklisted token is rejected before its signature is looked at:
      the answer is the same whatever `verify` would say. */
  lemma BlacklistedRejectedBeforeVerify(
    header: Option<seq<Byte>>, blacklisted: string -> Result<bool, AuthError>,
    verify1: string -> VerifyOutcome, verify2: string -> VerifyOutcome)
    requires BearerToken(header).Ok? && blacklisted(BearerToken(header).value) == Ok(true)
    ensures CheckAuth(header, blacklisted, verify1) == Err(Unauthorized(TOKEN_INVALIDATED))
    ensures CheckAuth(header, blacklisted, verify1) == CheckAuth(header, blacklisted, verify2)
  {
  }

  /** A verified token that is not an access token (a refresh token) never
      authenticates a request. */
  lemma RefreshTokenNeverAuthenticates(
    header: Option<seq<Byte>>, blacklisted: string -> Result<bool, AuthError>,
    verify: string -> VerifyOutcome)
    requires BearerToken(header).Ok? && blacklisted(BearerToken(header).value) == Ok(false)
    requires verify(BearerToken(header).value).Verified?
    requires verify(BearerToken(header).value).claims.tokenType == Refresh
    ensures CheckAuth(header, blacklisted, verify) == Err(Unauthorized(INVALID_TOKEN_TYPE))
  {
  }

  /** An expired signature has its own message; every other verification
      failure is "Invalid token". */
  lemma VerificationFailureMessages(
    header: Option<seq<Byte>>, blacklisted: string -> Result<bool, AuthError>,
    verify: string -> VerifyOutcome)
    requires BearerToken(header).Ok? && blacklisted(BearerToken(header).value) == Ok(false)
    ensures verify(BearerToken(header).value) == ExpiredSignature ==>
              CheckAuth(header, blacklisted, verify) == Err(Unauthorized(TOKEN_EXPIRED))
    ensures verify(BearerToken(header).value) == InvalidToken ==>
              CheckAuth(header, blacklisted, verify) == Err(Unauthorized(INVALID_TOKEN))
  {
  }

  /** Without an Authorization header the request is refused with "No
      authorization header", and neither the blacklist nor the verifier
      matters. */
  lemma MissingHeaderRejected(
    blacklisted: string -> Result<bool, AuthError>, verify: string -> VerifyOutcome)
    ensures CheckAuth(None, blacklisted, verify) == Err(Unauthorized(NO_HEADER))
  {
  }

  /** `is_authorized`: the exact role, or `admin`, which passes every check. */
  predicate IsAuthorized(claims: Claims, requiredRole: string) {
    claims.role == requiredRole || claims.role == "admin"
  }

  /** Admin passes every role check; any other role passes only its own. */
  lemma AuthorizationRule(claims: Claims, requiredRole: string)
    ensures claims.role == "admin" ==> IsAuthorized(claims, requiredRole)
    ensures claims.role != "admin" ==> (IsAuthorized(claims, requiredRole) <==> claims.role == requiredRole)
  {
  }

  const DATABASE_ERROR_PREFIX := "Database error: "

  /** `is_token_blacklisted` against the `blacklisted_tokens` table:
      `dbError` is a failure to get a client or to run the query. */
  function Lookup(tokens: set<string>, token: string, dbError: Option<string>)
    : (r: Result<bool, AuthError>)
    ensures r.Ok? <==> dbError.None?
    ensures r.Ok? ==> (r.value <==> token in tokens)
    ensures r.Err? ==> r.error == Internal(DATABASE_ERROR_PREFIX + dbError.value)
  {
    match dbError
    case Some(e) => Err(Internal(DATABASE_ERROR_PREFIX + e))
    case None => Ok(token in tokens)
  }

  /** The blacklist as `check_auth` consults it. */
  function BlacklistOracle(tokens: set<string>, dbError: Option<string>)
    : string -> Result<bool, AuthError>
  {
    t => Lookup(tokens, t, dbError)
  }

  /** The `blacklisted_tokens` table: a set of tokens that only grows. */
  class Blacklist {
    var tokens: set<string>

    constructor ()
      ensures tokens == {}
    {
      tokens := {};
    }

    /** `invalidate_token`: insert the token; `dbError` is a failure to get
        a client or to run the insert, which leaves the table unchanged. */
    method Invalidate(token: string, dbError: Option<string>) returns (r: Result<(), AuthError>)
      modifies this
      ensures dbError.None? ==> r == Ok(()) && tokens == old(tokens) + {token}
      ensures dbError.Some? ==>
                r == Err(Internal(DATABASE_ERROR_PREFIX + dbError.value)) && tokens == old(tokens)
      ensures r.Ok? ==> Lookup(tokens, token, None) == Ok(true)
    {
      match dbError
      case Some(e) =>
        r := Err(Internal(DATABASE_ERROR_PREFIX + e));
      case None =>
        tokens := tokens + {token};
        r := Ok(());
    }

    /** `is_token_blacklisted`. */
    method IsBlacklisted(token: string, dbError: Option<string>) returns (r: Result<bool, AuthError>)
      ensures r.Ok? <==> dbError.None?
      ensures r.Ok? ==> (r.value <==> token in tokens)
      ensures r == Lookup(tokens, token, dbError)
    {
      match dbError
      case Some(e) =>
        r := Err(Internal(DATABASE_ERROR_PREFIX + e));
      case None =>
        r := Ok(token in tokens);
    }
  }
}
