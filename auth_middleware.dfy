/** The authentication middleware of backend/src/middleware/auth.rs: the
    `Auth` builder, the `AuthMiddleware` it produces, and the decision
    `AuthMiddleware::call` makes before the wrapped service runs. */
module Middleware {
  import opened Wrappers
  import opened AuthCore

  const INSUFFICIENT_PERMISSIONS := "Insufficient permissions"

  /** What `call` does with a request: refuse it with an error, or forward
      it with these claims. */
  datatype Decision = Reject(error: AuthError) | Forward(claims: Claims)

  /** The decision of `call` over the `check_auth` result and the optional
      role requirement. */
  function Decide(role: Option<string>, auth: Result<Claims, AuthError>): (d: Decision)
    ensures auth.Err? ==> d == Reject(auth.error)
    ensures d.Forward? <==> auth.Ok? && (role.Some? ==> IsAuthorized(auth.value, role.value))
    ensures d.Forward? ==> d.claims == auth.value
    ensures auth.Ok? && d.Reject? ==> d.error == Forbidden(INSUFFICIENT_PERMISSIONS)
  {
    match auth
    case Err(e) => Reject(e)
    case Ok(claims) =>
      if role.Some? && !IsAuthorized(claims, role.value)
      then Reject(Forbidden(INSUFFICIENT_PERMISSIONS))
      else Forward(claims)
  }

  /** Without a role requirement every authenticated request is forwarded. */
  lemma NoRoleForwardsAuthenticated(auth: Result<Claims, AuthError>)
    requires auth.Ok?
    ensures Decide(None, auth) == Forward(auth.value)
  {
  }

  /** A forwarded request carries a verified access token whose role meets
      the requirement, if there is one. */
  lemma ForwardedRequestsAreAuthorized(
    role: Option<string>, header: Option<seq<Byte>>,
    blacklisted: string -> Result<bool, AuthError>, verify: string -> VerifyOutcome)
    requires Decide(role, CheckAuth(header, blacklisted, verify)).Forward?
    ensures var c := Decide(role, CheckAuth(header, blacklisted, verify)).claims;
            && c.tokenType == Access
            && BearerToken(header).Ok?
            && blacklisted(BearerToken(header).value) == Ok(false)
            && verify(BearerToken(header).value) == Verified(c)
            && (role.Some? ==> c.role == role.value || c.role == "admin")
  {
  }

  /** The request as the middleware sees it: the Authorization header and
      the slot of the request extensions that holds `Claims`. */
  class ServiceRequest {
    const authorization: Option<seq<Byte>>
    var claims: Option<Claims>

    constructor (authorization: Option<seq<Byte>>)
      ensures this.authorization == authorization && claims == None
    {
      this.authorization := authorization;
      claims := None;
    }
  }

  /** `AuthMiddleware`: the role requirement copied from the builder (the
      wrapped service is the `inner` argument of `Call`). */
  datatype AuthMiddleware = AuthMiddleware(role: Option<string>)
  {
    /** `call`: authenticate, check the role, store the claims in the
        request, and only then run the inner service, which sees the
        request's claims.  A refused request is answered with its error,
        the inner service is not run and the request is not changed. */
    method Call<R>(
      req: ServiceRequest,
      blacklisted: string -> Result<bool, AuthError>,
      verify: string -> VerifyOutcome,
      inner: Option<Claims> -> Result<R, AuthError>)
      returns (r: Result<R, AuthError>)
      modifies req
      ensures match Decide(role, CheckAuth(req.authorization, blacklisted, verify))
              case Reject(e) => r == Err(e) && req.claims == old(req.claims)
              case Forward(c) => req.claims == Some(c) && r == inner(Some(c))
    {
      var auth := CheckAuth(req.authorization, blacklisted, verify);
      match auth
      case Err(e) =>
        return Err(e);
      case Ok(claims) =>
        if role.Some? && !IsAuthorized(claims, role.value) {
          return Err(Forbidden(INSUFFICIENT_PERMISSIONS));
        }
        req.claims := Some(claims);
        r := inner(req.claims);
    }
  }

  /** `Auth`: the builder that configures the middleware. */
  class Auth {
    var role: Option<string>

    /** `Auth::new`: no role requirement. */
    constructor ()
      ensures role == None
    {
      role := None;
    }

    /** `Auth::role`: require this role. */
    method Role(r: string)
      modifies this
      ensures role == Some(r)
    {
      role := Some(r);
    }

    /** `new_transform`: the middleware gets a copy of the requirement. */
    method NewTransform() returns (m: AuthMiddleware)
      ensures m.role == role
    {
      m := AuthMiddleware(role);
    }
  }

  /** `Auth::new().role(r)` yields a middleware that refuses, with 403, an
      authenticated non-admin caller of another role. */
  method ConfiguredRoleIsEnforced(r: string, c: Claims) returns (m: AuthMiddleware)
    requires c.role != r && c.role != "admin"
    ensures m.role == Some(r)
    ensures Decide(m.role, Ok(c)) == Reject(Forbidden(INSUFFICIENT_PERMISSIONS))
  {
    var auth := new Auth();
    auth.Role(r);
    m := auth.NewTransform();
  }
}
