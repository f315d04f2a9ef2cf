/** Bearer-token authentication: lifting the configured hash text into a
    parsed credential hash, and the middleware decision that guards the
    service routes. Hash parsing and verification belong to a foreign
    library and enter as oracle parameters. */
module Auth {
  import opened Wrappers
  import opened Errors

  const HashErrorPrefix: string := "Failed to parse password hash: "

  /** `read_password_hash`: no configured text means no hash; configured
      text must parse, and a parse failure is reported with its reason. */
  function ReadPasswordHash<H>(authToken: Option<string>, parse: string -> Result<H, string>)
    : (r: Result<Option<H>, string>)
    ensures r == Success(None) <==> authToken.None?
    ensures authToken.Some? ==> (r.Success? <==> parse(authToken.value).Success?)
    ensures r.Success? && authToken.Some? ==> r.value == Some(parse(authToken.value).value)
    ensures r.Failure? ==> r.error == HashErrorPrefix + parse(authToken.value).error
  {
    match authToken
    case None => Success(None)
    case Some(t) =>
      match parse(t)
      case Success(h) => Success(Some(h))
      case Failure(e) => Failure(HashErrorPrefix + e)
  }

  /** The outcome of the verification task handed to the blocking worker
      pool: it either finishes with the verifier's verdict or fails to join
      (panicked or cancelled). */
  datatype Join = Finished(verified: bool) | JoinFailed

  /** `auth_middleware`. `header` is the extracted bearer token or the
      extractor's rejection; `verify` runs the verifier on a token;
      `next` is the downstream handler and `req` the request. */
  function AuthMiddleware<Req, Resp>(
    header: Result<string, HeaderRejection>,
    verify: string -> Join,
    next: Req -> Resp,
    req: Req): (r: Result<Resp, ServiceError>)
    ensures header.Failure? ==> r == Failure(Unauthorized)
    ensures header.Success? && verify(header.value) == JoinFailed ==> r == Failure(Unexpected)
    ensures header.Success? && verify(header.value) == Finished(false) ==> r == Failure(Unauthorized)
    ensures r.Success? <==> header.Success? && verify(header.value) == Finished(true)
    ensures r.Success? ==> r.value == next(req)
  {
    match header
    case Failure(rejection) => Failure(FromHeaderRejection(rejection))
    case Success(token) =>
      match verify(token)
      case JoinFailed => Failure(Unexpected)
      case Finished(verified) =>
        if verified then Success(next(req)) else Failure(Unauthorized)
  }

  /** A missing or malformed header is rejected before the verifier or the
      handler runs: the outcome is the same whatever they would do. */
  lemma RejectedHeaderRunsNothing<Req, Resp>(
    rejection: HeaderRejection,
    verify1: string -> Join, verify2: string -> Join,
    next1: Req -> Resp, next2: Req -> Resp,
    req: Req)
    ensures AuthMiddleware(Failure(rejection), verify1, next1, req)
         == AuthMiddleware(Failure(rejection), verify2, next2, req)
         == Failure(Unauthorized)
  {
  }

  /** Unless verification succeeds the handler does not run: the outcome
      does not depend on it. */
  lemma FailedVerificationSkipsHandler<Req, Resp>(
    header: Result<string, HeaderRejection>,
    verify: string -> Join,
    next1: Req -> Resp, next2: Req -> Resp,
    req: Req)
    requires !(header.Success? && verify(header.value) == Finished(true))
    ensures AuthMiddleware(header, verify, next1, req) == AuthMiddleware(header, verify, next2, req)
    ensures AuthMiddleware(header, verify, next1, req).Failure?
  {
  }

  /** Only the verifier's verdict on the presented token matters: two
      verifiers that agree on it give the same outcome. */
  lemma OnlyTokenVerdictMatters<Req, Resp>(
    token: string,
    verify1: string -> Join, verify2: string -> Join,
    next: Req -> Resp, req: Req)
    requires verify1(token) == verify2(token)
    ensures AuthMiddleware(Success(token), verify1, next, req)
         == AuthMiddleware(Success(token), verify2, next, req)
  {
  }
}
