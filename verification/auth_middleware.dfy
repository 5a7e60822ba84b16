/**
 * Token extraction and the request guards of the API routes
 * (lib/auth-middleware.ts). Signature checking is not modelled: the verifier
 * is a function parameter that says how the awaited verification of a token
 * settled, and a route handler is a function parameter too.
 */
module AuthMiddleware {
  import opened Wrappers

  /** The claims a verified token carries. */
  datatype Payload = Payload(userId: string, email: string, username: string)

  /** How an awaited token verification settled: with a payload, with null, or by throwing. */
  datatype Verdict = Verified(payload: Payload) | Invalid | Threw

  type Verifier = string -> Verdict

  /** The parts of a request the guards read: the `auth-token` cookie and the `authorization` header. */
  datatype Request = Request(cookie: Option<string>, authorization: Option<string>)

  const BearerPrefix: string := "Bearer "

  /**
   * `getAuthToken`: a non-empty cookie wins; otherwise a header that starts
   * with exactly 'Bearer ' gives what follows those seven characters (possibly
   * the empty string); otherwise there is no token.
   */
  function GetAuthToken(r: Request): (token: Option<string>)
    ensures Truthy(r.cookie) ==> token == r.cookie
    ensures !Truthy(r.cookie) && Truthy(r.authorization) && BearerPrefix <= r.authorization.value ==>
      token.Some? && r.authorization.value == BearerPrefix + token.value
    ensures token.None? <==>
      !Truthy(r.cookie) && !(Truthy(r.authorization) && BearerPrefix <= r.authorization.value)
  {
    if Truthy(r.cookie) then r.cookie
    else if Truthy(r.authorization) && BearerPrefix <= r.authorization.value then
      Some(r.authorization.value[|BearerPrefix|..])
    else None
  }

  /**
   * Without a usable cookie, a header 'Bearer ' + t yields t back, and the
   * header is ignored whenever a non-empty cookie is present.
   */
  lemma BearerRoundTrip(t: string, cookie: Option<string>)
    ensures !Truthy(cookie) ==> GetAuthToken(Request(cookie, Some(BearerPrefix + t))) == Some(t)
    ensures Truthy(cookie) ==> GetAuthToken(Request(cookie, Some(BearerPrefix + t))) == cookie
  {
    assert BearerPrefix <= BearerPrefix + t;
    assert (BearerPrefix + t)[|BearerPrefix|..] == t;
  }

  /** The prefix test is case-sensitive: a lower-case 'bearer ' header gives no token. */
  lemma LowerCaseBearerRejected(t: string)
    ensures GetAuthToken(Request(None, Some("bearer " + t))) == None
  {
    assert ("bearer " + t)[0] == 'b';
  }

  /**
   * `verifyAuthToken`: null for a missing or empty token, and otherwise what
   * the verifier settles to.
   */
  function VerifyAuthToken(r: Request, verify: Verifier): (v: Verdict)
    ensures !Truthy(GetAuthToken(r)) ==> v == Invalid
    ensures Truthy(GetAuthToken(r)) ==> v == verify(GetAuthToken(r).value)
  {
    var token := GetAuthToken(r);
    if !Truthy(token) then Invalid else verify(token.value)
  }

  /**
   * Without a token the verifier is never consulted: any two verifiers give
   * the same answer, and so does a bare 'Bearer ' header.
   */
  lemma NoTokenNoVerifier(r: Request, v1: Verifier, v2: Verifier)
    ensures !Truthy(GetAuthToken(r)) ==> VerifyAuthToken(r, v1) == VerifyAuthToken(r, v2) == Invalid
    ensures VerifyAuthToken(Request(None, Some(BearerPrefix)), v1) == Invalid
  {
    assert BearerPrefix <= BearerPrefix;
    assert BearerPrefix[|BearerPrefix|..] == "";
  }

  /** The result object of `verifyToken`. */
  datatype VerifyResult = VerifyResult(success: bool, userId: Option<string>, message: Option<string>)

  /**
   * `verifyToken`: success with the payload's user id exactly when the token
   * verifies; 'Invalid or missing token' for null and 'Token verification
   * failed' when verification throws.
   */
  function VerifyToken(r: Request, verify: Verifier): (res: VerifyResult)
    ensures res.success <==> VerifyAuthToken(r, verify).Verified?
    ensures res.success ==> res.userId == Some(VerifyAuthToken(r, verify).payload.userId) && res.message.None?
    ensures VerifyAuthToken(r, verify) == Invalid ==> res == VerifyResult(false, None, Some("Invalid or missing token"))
    ensures VerifyAuthToken(r, verify) == Threw ==> res == VerifyResult(false, None, Some("Token verification failed"))
  {
    match VerifyAuthToken(r, verify)
    case Verified(p) => VerifyResult(true, Some(p.userId), None)
    case Invalid => VerifyResult(false, None, Some("Invalid or missing token"))
    case Threw => VerifyResult(false, None, Some("Token verification failed"))
  }

  /** An HTTP response: status code and JSON body. */
  datatype Response = Response(status: int, body: string)

  /** A wrapped handler either answers or rejects (an exception escaped it). */
  datatype Outcome = Answered(response: Response) | Rejected

  const AuthRequiredBody: string := "{\"success\":false,\"message\":\"Authentication required\"}"

  /**
   * `requireAuth(handler)` applied to a request: a 401 'Authentication
   * required' answer when no user verifies, the handler's answer for the
   * verified user otherwise; a throwing verification rejects.
   */
  function RequireAuth(handler: (Request, Payload) -> Response, r: Request, verify: Verifier): (out: Outcome)
    ensures VerifyAuthToken(r, verify) == Invalid ==> out == Answered(Response(401, AuthRequiredBody))
    ensures VerifyAuthToken(r, verify).Verified? ==>
      out == Answered(handler(r, VerifyAuthToken(r, verify).payload))
    ensures out == Rejected <==> VerifyAuthToken(r, verify) == Threw
  {
    match VerifyAuthToken(r, verify)
    case Verified(user) => Answered(handler(r, user))
    case Invalid => Answered(Response(401, AuthRequiredBody))
    case Threw => Rejected
  }

  /**
   * The handler is never reached without a verified user: whatever two
   * handlers are wrapped, a request without one gets the same answer, and a
   * request with no token at all always gets the 401.
   */
  lemma UnverifiedNeverReachesHandler(h1: (Request, Payload) -> Response, h2: (Request, Payload) -> Response,
                                      r: Request, verify: Verifier)
    ensures !VerifyAuthToken(r, verify).Verified? ==> RequireAuth(h1, r, verify) == RequireAuth(h2, r, verify)
    ensures GetAuthToken(r).None? ==> RequireAuth(h1, r, verify) == Answered(Response(401, AuthRequiredBody))
  {
  }
}
