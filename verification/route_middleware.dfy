/**
 * The edge middleware (middleware.ts): it classifies the request path by
 * prefix and decides between passing the request on, answering 401, or
 * redirecting a signed-in visitor away from the sign-in and sign-up pages.
 *
 * As written it calls the asynchronous verifier without awaiting it, so what
 * it tests is a pending promise, which is always truthy. `MiddlewareAsWritten`
 * models that; `Middleware` is the evidently intended version that awaits.
 */
module RouteMiddleware {
  import opened Wrappers
  import opened AuthMiddleware

  const ProtectedRoutes: seq<string> := ["/api/auth/me"]
  const AuthRoutes: seq<string> := ["/member/sign-in", "/member/sign-up"]

  /** `routes.some(route => pathname.startsWith(route))`. */
  function StartsWithAny(path: string, routes: seq<string>): (found: bool)
    ensures found <==> exists i :: 0 <= i < |routes| && routes[i] <= path
  {
    if routes == [] then false
    else routes[0] <= path || StartsWithAny(path, routes[1..])
  }

  /** A path is protected exactly when it starts with '/api/auth/me' (so '/api/auth/meX' is protected too). */
  lemma ProtectedIffPrefix(path: string)
    ensures StartsWithAny(path, ProtectedRoutes) <==> "/api/auth/me" <= path
  {
    assert ProtectedRoutes[0] == "/api/auth/me";
  }

  /** A path is an auth route exactly when it starts with '/member/sign-in' or '/member/sign-up'. */
  lemma AuthRouteIffPrefix(path: string)
    ensures StartsWithAny(path, AuthRoutes) <==> "/member/sign-in" <= path || "/member/sign-up" <= path
  {
    assert AuthRoutes[0] == "/member/sign-in" && AuthRoutes[1] == "/member/sign-up";
  }

  /** No path is both protected and an auth route. */
  lemma RouteClassesDisjoint(path: string)
    ensures !(StartsWithAny(path, ProtectedRoutes) && StartsWithAny(path, AuthRoutes))
  {
    ProtectedIffPrefix(path);
    AuthRouteIffPrefix(path);
    if "/api/auth/me" <= path {
      assert path[1] == 'a';
      assert "/member/sign-in"[1] == 'm' && "/member/sign-up"[1] == 'm';
    }
  }

  /** What the middleware does with a request. */
  datatype Decision =
    | Next
    | Unauthorized(message: string, clearCookie: bool)
    | RedirectToPlay
    | Failed

  /** The value `JWTHelper.verifyToken(token)` returns before it is awaited: a promise of the verdict. */
  datatype Pending = Pending(settlesTo: Verdict)

  /** A promise is an object, and every object is truthy. */
  predicate PromiseTruthy(p: Pending)
  {
    true
  }

  /**
   * `middleware` as written: each verifier result is used without being awaited. A
   * protected path without a token gets 401 'Authentication required'; any
   * token passes it, and any token on an auth route redirects to '/play'.
   */
  function MiddlewareAsWritten(path: string, token: Option<string>, verify: Verifier): (d: Decision)
    ensures StartsWithAny(path, ProtectedRoutes) && !Truthy(token) ==>
      d == Unauthorized("Authentication required", false)
    ensures StartsWithAny(path, ProtectedRoutes) && Truthy(token) ==> d == Next
    ensures StartsWithAny(path, AuthRoutes) ==> d == (if Truthy(token) then RedirectToPlay else Next)
    ensures !StartsWithAny(path, ProtectedRoutes) && !StartsWithAny(path, AuthRoutes) ==> d == Next
  {
    RouteClassesDisjoint(path);
    var isProtected := StartsWithAny(path, ProtectedRoutes);
    var isAuth := StartsWithAny(path, AuthRoutes);
    if isProtected && !Truthy(token) then Unauthorized("Authentication required", false)
    else if isProtected && !PromiseTruthy(Pending(verify(token.value))) then Unauthorized("Invalid token", true)
    else if isAuth && Truthy(token) && PromiseTruthy(Pending(verify(token.value))) then RedirectToPlay
    else Next
  }

  /**
   * As written the verifier's verdict never matters and the cookie-clearing
   * 'Invalid token' answer is never given.
   */
  lemma AsWrittenIgnoresVerifier(path: string, token: Option<string>, v1: Verifier, v2: Verifier)
    ensures MiddlewareAsWritten(path, token, v1) == MiddlewareAsWritten(path, token, v2)
    ensures MiddlewareAsWritten(path, token, v1) != Unauthorized("Invalid token", true)
  {
    RouteClassesDisjoint(path);
  }

  /** The concrete case: a forged token on '/api/auth/me' that the verifier rejects is let through. */
  lemma ForgedTokenPassesAsWritten()
    ensures var reject: Verifier := _ => Invalid;
      MiddlewareAsWritten("/api/auth/me", Some("forged"), reject) == Next
  {
    RouteClassesDisjoint("/api/auth/me");
    assert StartsWithAny("/api/auth/me", ProtectedRoutes);
  }

  /**
   * The middleware with each verification awaited: a protected path needs a
   * token that verifies, an invalid one is answered with 401 'Invalid token'
   * and the cookie cleared; an auth route redirects only a visitor whose token
   * verifies. A verification that throws fails the request.
   */
  function Middleware(path: string, token: Option<string>, verify: Verifier): (d: Decision)
    ensures StartsWithAny(path, ProtectedRoutes) && !Truthy(token) ==>
      d == Unauthorized("Authentication required", false)
    ensures StartsWithAny(path, ProtectedRoutes) && Truthy(token) ==>
      d == match verify(token.value)
        case Verified(_) => Next
        case Invalid => Unauthorized("Invalid token", true)
        case Threw => Failed
    ensures StartsWithAny(path, AuthRoutes) ==>
      d == (if !Truthy(token) then Next
        else match verify(token.value)
          case Verified(_) => RedirectToPlay
          case Invalid => Next
          case Threw => Failed)
    ensures !StartsWithAny(path, ProtectedRoutes) && !StartsWithAny(path, AuthRoutes) ==> d == Next
  {
    RouteClassesDisjoint(path);
    var isProtected := StartsWithAny(path, ProtectedRoutes);
    var isAuth := StartsWithAny(path, AuthRoutes);
    if isProtected && !Truthy(token) then Unauthorized("Authentication required", false)
    else if isProtected && verify(token.value) == Invalid then Unauthorized("Invalid token", true)
    else if isProtected && verify(token.value) == Threw then Failed
    else if isAuth && Truthy(token) && verify(token.value) == Threw then Failed
    else if isAuth && Truthy(token) && verify(token.value).Verified? then RedirectToPlay
    else Next
  }

  /**
   * With awaiting, a request reaches a protected route only with a token the
   * verifier accepts, and the two versions agree on every request whose
   * token verifies or is missing.
   */
  lemma ProtectedRouteNeedsVerifiedToken(path: string, token: Option<string>, verify: Verifier)
    ensures StartsWithAny(path, ProtectedRoutes) && Middleware(path, token, verify) == Next ==>
      Truthy(token) && verify(token.value).Verified?
    ensures !Truthy(token) || verify(token.value).Verified? ==>
      Middleware(path, token, verify) == MiddlewareAsWritten(path, token, verify)
  {
    RouteClassesDisjoint(path);
  }

  /** With awaiting, the forged token is refused and its cookie cleared. */
  lemma ForgedTokenRefused()
    ensures var reject: Verifier := _ => Invalid;
      Middleware("/api/auth/me", Some("forged"), reject) == Unauthorized("Invalid token", true)
  {
    RouteClassesDisjoint("/api/auth/me");
    assert StartsWithAny("/api/auth/me", ProtectedRoutes);
  }

  /** As written, the same forged token on the sign-in page is redirected to '/play' as if signed in. */
  lemma ForgedTokenRedirectedAsWritten()
    ensures var reject: Verifier := _ => Invalid;
      MiddlewareAsWritten("/member/sign-in", Some("forged"), reject) == RedirectToPlay
  {
    AuthRouteIffPrefix("/member/sign-in");
  }

  /**
   * With awaiting, an auth route redirects exactly the visitors whose token
   * verifies, so the forged token stays on the sign-in page.
   */
  lemma ForgedTokenNotRedirected(path: string, token: Option<string>, verify: Verifier)
    requires StartsWithAny(path, AuthRoutes)
    ensures Middleware(path, token, verify) == RedirectToPlay <==> Truthy(token) && verify(token.value).Verified?
    ensures var reject: Verifier := _ => Invalid;
      Middleware("/member/sign-in", Some("forged"), reject) == Next
  {
    AuthRouteIffPrefix("/member/sign-in");
  }
}
