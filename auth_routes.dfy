/** The login, refresh and logout handlers of backend/src/routes/auth.rs.
    The user lookup, bcrypt, signing and verification are oracles. */
module AuthRoutes {
  import opened Wrappers
  import opened Http
  import opened AuthCore

  /** The fields of a `users` row the handlers use. */
  datatype User = User(id: string, email: string, role: string, passwordHash: string)

  datatype LoginForm = LoginForm(email: string, password: string)

  datatype TokenResponse = TokenResponse(accessToken: string, refreshToken: string)

  /** The bodies the handlers answer with. */
  datatype Body = NoBody | Message(text: string) | Tokens(tokens: TokenResponse) | Token(token: string)

  const INVALID_CREDENTIALS := "Invalid email or password"
  const INVALID_REFRESH_TOKEN := "Invalid refresh token"
  const LOGGED_OUT := "Logged out successfully"
  const NO_TOKEN := "No token provided"

  /** Whether the password checks against the stored hash; a bcrypt error
      (`unwrap_or(false)`) counts as a mismatch. */
  predicate PasswordMatches(form: LoginForm, user: User,
                            bcryptVerify: (string, string) -> Result<bool, string>)
  {
    bcryptVerify(form.password, user.passwordHash) == Ok(true)
  }

  /** `login`: look the user up by email, check the password, then sign an
      access and a refresh token for the user's id and role.  `now` is the
      issue time of both tokens. */
  function Login(
    form: LoginForm,
    findByEmail: string -> Result<User, string>,
    bcryptVerify: (string, string) -> Result<bool, string>,
    encode: Claims -> Result<string, string>,
    now: int): (r: Response<Body>)
    ensures r.status == Ok200 <==>
              && findByEmail(form.email).Ok?
              && PasswordMatches(form, findByEmail(form.email).value, bcryptVerify)
              && CreateJwt(findByEmail(form.email).value.id, findByEmail(form.email).value.role, Access, now, encode).Ok?
              && CreateJwt(findByEmail(form.email).value.id, findByEmail(form.email).value.role, Refresh, now, encode).Ok?
    ensures r.status in {Ok200, Unauthorized401, InternalError500}
  {
    match findByEmail(form.email)
    case Err(_) => Response(Unauthorized401, Message(INVALID_CREDENTIALS))
    case Ok(user) =>
      if !PasswordMatches(form, user, bcryptVerify) then
        Response(Unauthorized401, Message(INVALID_CREDENTIALS))
      else
        var access := CreateJwt(user.id, user.role, Access, now, encode);
        var refresh := CreateJwt(user.id, user.role, Refresh, now, encode);
        if access.Ok? && refresh.Ok? then
          Response(Ok200, Tokens(TokenResponse(access.value, refresh.value)))
        else
          Response(InternalError500, NoBody)
  }

  /** An unknown email and a wrong password get the same answer, so the
      response does not reveal which accounts exist; no token is signed. */
  lemma LoginFailuresIndistinguishable(
    form: LoginForm, findByEmail: string -> Result<User, string>,
    bcryptVerify: (string, string) -> Result<bool, string>,
    encode1: Claims -> Result<string, string>, encode2: Claims -> Result<string, string>, now: int)
    requires findByEmail(form.email).Err? ||
             !PasswordMatches(form, findByEmail(form.email).value, bcryptVerify)
    ensures Login(form, findByEmail, bcryptVerify, encode1, now) ==
            Response(Unauthorized401, Message(INVALID_CREDENTIALS))
    ensures Login(form, findByEmail, bcryptVerify, encode1, now) ==
            Login(form, findByEmail, bcryptVerify, encode2, now)
  {
  }

  /** A successful login returns an access and a refresh token, both signed
      over the found user's id and role, with their two lifetimes. */
  lemma LoginIssuesBothTokens(
    form: LoginForm, findByEmail: string -> Result<User, string>,
    bcryptVerify: (string, string) -> Result<bool, string>,
    encode: Claims -> Result<string, string>, now: int)
    requires Login(form, findByEmail, bcryptVerify, encode, now).status == Ok200
    ensures var u := findByEmail(form.email).value;
            Login(form, findByEmail, bcryptVerify, encode, now).body ==
              Tokens(TokenResponse(encode(JwtClaims(u.id, u.role, Access, now)).value,
                                   encode(JwtClaims(u.id, u.role, Refresh, now)).value))
  {
  }

  /** Once the password checks, a signing failure of either token is 500. */
  lemma LoginSigningFailureIs500(
    form: LoginForm, findByEmail: string -> Result<User, string>,
    bcryptVerify: (string, string) -> Result<bool, string>,
    encode: Claims -> Result<string, string>, now: int)
    requires findByEmail(form.email).Ok?
    requires PasswordMatches(form, findByEmail(form.email).value, bcryptVerify)
    requires var u := findByEmail(form.email).value;
             encode(JwtClaims(u.id, u.role, Access, now)).Err? ||
             encode(JwtClaims(u.id, u.role, Refresh, now)).Err?
    ensures Login(form, findByEmail, bcryptVerify, encode, now) == Response(InternalError500, NoBody)
  {
  }

  /** `refresh`: a verified refresh token buys a new access token with the
      same subject and role.  The blacklist is not consulted. */
  function RefreshAccess(
    refreshToken: string,
    verify: string -> VerifyOutcome,
    encode: Claims -> Result<string, string>,
    now: int): (r: Response<Body>)
    ensures !verify(refreshToken).Verified? ==>
              r == Response(Unauthorized401, Message(INVALID_REFRESH_TOKEN))
    ensures verify(refreshToken).Verified? && verify(refreshToken).claims.tokenType != Refresh ==>
              r == Response(BadRequest400, Message(INVALID_TOKEN_TYPE))
    ensures r.status == Ok200 <==>
              && verify(refreshToken).Verified?
              && verify(refreshToken).claims.tokenType == Refresh
              && encode(JwtClaims(verify(refreshToken).claims.sub,
                                  verify(refreshToken).claims.role, Access, now)).Ok?
  {
    match verify(refreshToken)
    case Verified(claims) =>
      if claims.tokenType != Refresh then Response(BadRequest400, Message(INVALID_TOKEN_TYPE))
      else
        (match CreateJwt(claims.sub, claims.role, Access, now, encode)
         case Ok(token) => Response(Ok200, Token(token))
         case Err(_) => Response(InternalError500, NoBody))
    case ExpiredSignature => Response(Unauthorized401, Message(INVALID_REFRESH_TOKEN))
    case InvalidToken => Response(Unauthorized401, Message(INVALID_REFRESH_TOKEN))
  }

  /** The token a successful refresh returns is an access token for the
      refresh token's subject and role, expiring an hour after `now`. */
  lemma RefreshKeepsSubjectAndRole(
    refreshToken: string, verify: string -> VerifyOutcome,
    encode: Claims -> Result<string, string>, now: int)
    requires RefreshAccess(refreshToken, verify, encode, now).status == Ok200
    ensures var c := verify(refreshToken).claims;
            Ok(RefreshAccess(refreshToken, verify, encode, now).body.token) ==
              encode(Claims(c.sub, c.role, ToUsize(now + ACCESS_LIFETIME), Access))
  {
  }

  /** The token `logout` would invalidate: the same header rules as
      `check_auth` (textual, exact "Bearer " prefix). */
  function LogoutToken(header: Option<seq<Byte>>): (r: Option<string>)
    ensures r.Some? <==> BearerToken(header).Ok?
    ensures r.Some? ==> r.value == BearerToken(header).value
  {
    match header
    case None => None
    case Some(h) =>
      match HeaderToStr(h)
      case None => None
      case Some(s) => ExtractBearer(s)
  }

  /** `logout`: blacklist the bearer token of the request.  A request
      without one is 400 and changes nothing; a database failure is 500 and
      changes nothing. */
  method Logout(header: Option<seq<Byte>>, blacklist: Blacklist, dbError: Option<string>)
    returns (r: Response<Body>)
    modifies blacklist
    ensures LogoutToken(header).None? ==>
              r == Response(BadRequest400, Message(NO_TOKEN)) && blacklist.tokens == old(blacklist.tokens)
    ensures LogoutToken(header).Some? && dbError.None? ==>
              r == Response(Ok200, Message(LOGGED_OUT)) &&
              blacklist.tokens == old(blacklist.tokens) + {LogoutToken(header).value}
    ensures LogoutToken(header).Some? && dbError.Some? ==>
              r == Response(InternalError500, NoBody) && blacklist.tokens == old(blacklist.tokens)
  {
    var token := LogoutToken(header);
    if token.None? {
      return Response(BadRequest400, Message(NO_TOKEN));
    }
    var result := blacklist.Invalidate(token.value, dbError);
    if result.Ok? {
      r := Response(Ok200, Message(LOGGED_OUT));
    } else {
      r := Response(InternalError500, NoBody);
    }
  }

  /** After a logout that succeeded, the same header no longer
      authenticates, whatever the verifier says of the token. */
  lemma LoggedOutTokenRejected(
    header: Option<seq<Byte>>, tokens: set<string>, verify: string -> VerifyOutcome)
    requires LogoutToken(header).Some?
    ensures CheckAuth(header, BlacklistOracle(tokens + {LogoutToken(header).value}, None), verify) ==
            Err(Unauthorized(TOKEN_INVALIDATED))
  {
    var token := LogoutToken(header).value;
    assert BlacklistOracle(tokens + {token}, None)(token) == Ok(true);
  }
}
