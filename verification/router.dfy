/** The service routes as a whole: the authentication layer, installed
    only when the gateway has authentication on, in front of the handlers,
    and the rendering of every outcome as an HTTP response. Also the wiring
    of the derived configuration into the gateway context. */
module Router {
  import opened Wrappers
  import opened Errors
  import opened Auth
  import opened Services
  import Config

  datatype Operation = Act(verb: Verb) | QueryStatus

  /** A request to `/api/v1/services/{service}/{operation}`. */
  datatype Request = Request(op: Operation, service: string)

  datatype Body =
    | JobBody(job: ServiceResponse)
    | StatusBody(status: ServiceStatusResponse)
    | ErrorBody(error: ErrorResponse)

  datatype HttpResponse = HttpResponse(status: nat, body: Body)

  /** The response sent back together with the remote calls made for it. */
  datatype Exchange = Exchange(response: HttpResponse, calls: seq<Call>)

  const Ok: nat := 200

  function ErrorResponseOf(k: ServiceError): (resp: HttpResponse)
    ensures resp.status == Render(k).status && resp.body == ErrorBody(Render(k).body)
  {
    var reply := Render(k);
    HttpResponse(reply.status, ErrorBody(reply.body))
  }

  /** Run the handler the route selects and render its outcome: 200 with
      the handler's record, or the error's status and fixed text. */
  function Dispatch(gw: Gateway, m: Manager, inRange: int -> bool, req: Request): (x: Exchange)
    ensures x.response.status == Ok <==> x.response.body.JobBody? || x.response.body.StatusBody?
    ensures x.response.status in {Ok, 400, 500}
    ensures !Allowed(gw, req.service) ==>
              x == Exchange(HttpResponse(400, ErrorBody(ErrorResponse(InvalidUnitText))), [])
    ensures req.op.Act? && Allowed(gw, req.service) ==>
              x.calls == [Job(req.op.verb, req.service, JobMode)]
    ensures req.op.Act? && Allowed(gw, req.service) && m.job(req.op.verb, req.service, JobMode).Success? ==>
              x.response == HttpResponse(Ok, JobBody(ServiceResponse(req.service, StatusWord(req.op.verb))))
    ensures req.op.Act? && Allowed(gw, req.service) && m.job(req.op.verb, req.service, JobMode).Failure? ==>
              x.response == ErrorResponseOf(FromDBus(m.job(req.op.verb, req.service, JobMode).error))
    ensures req.op.QueryStatus? ==> x.calls == HandleStatus(gw, req.service, m, inRange).calls
    ensures req.op.QueryStatus? && HandleStatus(gw, req.service, m, inRange).result.Success? ==>
              x.response == HttpResponse(Ok, StatusBody(HandleStatus(gw, req.service, m, inRange).result.value))
    ensures req.op.QueryStatus? && HandleStatus(gw, req.service, m, inRange).result.Failure? ==>
              x.response == ErrorResponseOf(HandleStatus(gw, req.service, m, inRange).result.error)
  {
    match req.op
    case Act(verb) =>
      var h := HandleVerb(gw, verb, req.service, m);
      (match h.result
       case Success(r) => Exchange(HttpResponse(Ok, JobBody(r)), h.calls)
       case Failure(e) => Exchange(ErrorResponseOf(e), h.calls))
    case QueryStatus =>
      var h := HandleStatus(gw, req.service, m, inRange);
      match h.result
      case Success(r) => Exchange(HttpResponse(Ok, StatusBody(r)), h.calls)
      case Failure(e) => Exchange(ErrorResponseOf(e), h.calls)
  }

  /** The service router: the authentication middleware wraps the handlers
      exactly when authentication is on. */
  function Serve(gw: Gateway, header: Result<string, HeaderRejection>, verify: string -> Join,
                 m: Manager, inRange: int -> bool, req: Request): (x: Exchange)
    ensures !gw.authEnabled ==> x == Dispatch(gw, m, inRange, req)
    ensures gw.authEnabled && header.Failure? ==>
              x == Exchange(HttpResponse(401, ErrorBody(ErrorResponse(UnauthorizedText))), [])
    ensures gw.authEnabled && x.calls != [] ==>
              header.Success? && verify(header.value) == Finished(true)
  {
    if gw.authEnabled then
      match AuthMiddleware(header, verify, (r: Request) => Dispatch(gw, m, inRange, r), req)
      case Success(x) => x
      case Failure(e) => Exchange(ErrorResponseOf(e), [])
    else
      Dispatch(gw, m, inRange, req)
  }

  /** The caller got past authentication, or there was none to pass. */
  predicate Authenticated(gw: Gateway, header: Result<string, HeaderRejection>, verify: string -> Join)
  {
    !gw.authEnabled || (header.Success? && verify(header.value) == Finished(true))
  }

  /** Without authentication the header and the verifier play no part. */
  lemma NoAuthIgnoresHeader(gw: Gateway, m: Manager, inRange: int -> bool, req: Request,
                            header1: Result<string, HeaderRejection>, verify1: string -> Join,
                            header2: Result<string, HeaderRejection>, verify2: string -> Join)
    requires !gw.authEnabled
    ensures Serve(gw, header1, verify1, m, inRange, req) == Serve(gw, header2, verify2, m, inRange, req)
  {
  }

  /** Without authentication a request with no usable header still runs
      its handler: it is never answered 401. */
  lemma NoAuthNeedsNoHeader(gw: Gateway, rejection: HeaderRejection, verify: string -> Join,
                            m: Manager, inRange: int -> bool, req: Request)
    requires !gw.authEnabled
    ensures Serve(gw, Failure(rejection), verify, m, inRange, req) == Dispatch(gw, m, inRange, req)
    ensures Serve(gw, Failure(rejection), verify, m, inRange, req).response.status != 401
  {
  }

  /** With authentication on, the handlers run, and the manager is
      reached, exactly for an authenticated caller; otherwise the reply is
      401, or 500 when the verification task fails to join. */
  lemma AuthGuardsHandlers(gw: Gateway, header: Result<string, HeaderRejection>, verify: string -> Join,
                           m: Manager, inRange: int -> bool, req: Request)
    requires gw.authEnabled
    ensures Authenticated(gw, header, verify) ==>
              Serve(gw, header, verify, m, inRange, req) == Dispatch(gw, m, inRange, req)
    ensures !Authenticated(gw, header, verify) ==>
              Serve(gw, header, verify, m, inRange, req).calls == []
              && Serve(gw, header, verify, m, inRange, req).response.status in {401, 500}
    ensures !Authenticated(gw, header, verify) ==>
              ((Serve(gw, header, verify, m, inRange, req).response.status == 500)
                 <==> header.Success? && verify(header.value) == JoinFailed)
  {
  }

  /** A name the gate refuses never reaches the manager, and an
      authenticated caller is told 400 "Invalid unit name", whatever the
      operation and whatever the manager would have said. */
  lemma RefusedNameNeverReachesManager(gw: Gateway, header: Result<string, HeaderRejection>,
                                       verify: string -> Join, m: Manager, inRange: int -> bool,
                                       req: Request)
    requires !Allowed(gw, req.service)
    ensures Serve(gw, header, verify, m, inRange, req).calls == []
    ensures Authenticated(gw, header, verify) ==>
              Serve(gw, header, verify, m, inRange, req).response
                == HttpResponse(400, ErrorBody(ErrorResponse(InvalidUnitText)))
  {
  }

  /** The published routes answer only 200, 400, 401 or 500, and 200
      exactly with a job or status record. */
  lemma StatusCodesClosed(gw: Gateway, header: Result<string, HeaderRejection>, verify: string -> Join,
                          m: Manager, inRange: int -> bool, req: Request)
    ensures var x := Serve(gw, header, verify, m, inRange, req);
            && x.response.status in {Ok, 400, 401, 500}
            && (x.response.status == Ok <==> !x.response.body.ErrorBody?)
  {
  }

  // -------------------------------------------------------- the scenarios

  /** Allowlist {"nginx"}, correct token: starting nginx is accepted. */
  lemma StartAllowedUnit(header: Result<string, HeaderRejection>, verify: string -> Join,
                         m: Manager, inRange: int -> bool)
    requires header.Success? && verify(header.value) == Finished(true)
    requires m.job(Start, "nginx", JobMode).Success?
    ensures Serve(Gateway(Some(["nginx"]), true), header, verify, m, inRange, Request(Act(Start), "nginx"))
         == Exchange(HttpResponse(Ok, JobBody(ServiceResponse("nginx", "starting"))),
                     [Job(Start, "nginx", "replace")])
  {
  }

  /** Allowlist {"nginx"}: starting sshd is refused with 400. */
  lemma StartUnlistedUnit(header: Result<string, HeaderRejection>, verify: string -> Join,
                          m: Manager, inRange: int -> bool)
    requires header.Success? && verify(header.value) == Finished(true)
    ensures Serve(Gateway(Some(["nginx"]), true), header, verify, m, inRange, Request(Act(Start), "sshd"))
         == Exchange(HttpResponse(400, ErrorBody(ErrorResponse("Invalid unit name"))), [])
  {
    assert "sshd" != "nginx" by { assert "sshd"[0] != "nginx"[0]; }
  }

  /** Authentication on, no header: a status request is refused with 401. */
  lemma StatusWithoutHeader(allowlist: Option<seq<string>>, verify: string -> Join,
                            m: Manager, inRange: int -> bool)
    ensures Serve(Gateway(allowlist, true), Failure(MissingHeader), verify, m, inRange, Request(QueryStatus, "nginx"))
         == Exchange(HttpResponse(401, ErrorBody(ErrorResponse("Invalid authorization token"))), [])
  {
  }

  // ---------------------------------------------------------- the wiring

  /** The gateway context built from the configuration: authentication is
      on when a token is configured, and the allowlist is the configured one. */
  function GatewayOf(config: Config.Config): (gw: Gateway)
    ensures gw.authEnabled <==> config.authToken.Some?
    ensures gw.allowlist == config.allowlist
  {
    Gateway(config.allowlist, config.authToken.Some?)
  }

  /** Starting from the environment: authentication stays on unless the
      flag reads "false", and with an allowlist variable set the gate admits
      exactly the non-empty trimmed comma-separated entries. In particular a
      name holding a comma or surrounding whitespace is never admitted, and
      a blank variable admits nothing. */
  lemma GateFromEnvironment(env: Config.Env, service: string)
    requires Config.FromEnvs(env).Success?
    ensures GatewayOf(Config.FromEnvs(env).value).authEnabled <==> Config.AuthEnabled(env)
    ensures Config.Var(env, Config.AllowlistVar).Failure? ==>
              (Allowed(GatewayOf(Config.FromEnvs(env).value), service) <==> service != "")
    ensures Config.Var(env, Config.AllowlistVar).Success? ==>
              var text := Config.Var(env, Config.AllowlistVar).value;
              && ((Allowed(GatewayOf(Config.FromEnvs(env).value), service))
                    <==> service != "" && service in Config.ParseAllowlist(text))
              && (',' in service ==> !Allowed(GatewayOf(Config.FromEnvs(env).value), service))
              && (Text.Trim(service) != service ==> !Allowed(GatewayOf(Config.FromEnvs(env).value), service))
              && ((forall k :: 0 <= k < |text| ==> Text.IsWhitespace(text[k])) ==>
                    !Allowed(GatewayOf(Config.FromEnvs(env).value), service))
  {
    var cfg := Config.FromEnvs(env).value;
    if Config.Var(env, Config.AllowlistVar).Success? {
      var text := Config.Var(env, Config.AllowlistVar).value;
      var names := Config.ParseAllowlist(text);
      assert cfg.allowlist == Some(names);
      if forall k :: 0 <= k < |text| ==> Text.IsWhitespace(text[k]) {
        Config.BlankAllowlist(text);
      }
    }
  }
}
