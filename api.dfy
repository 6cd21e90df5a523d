/** The API server of api.go: the readiness flag it owns, its cleanup list,
    its two routes, and the wrapper that turns a handler's error into an
    HTTP response. */
module Api {
  import opened Wrappers
  import opened Errors
  import opened Cleanups
  import opened Http

  /** A JSON body: GetReadinessResponse or an APIError; or plain text. */
  datatype Body = Message(message: string) | ErrorJson(error: APIError) | Text(text: string)

  /** One response written: status line and body (headers left out). */
  datatype Response = Response(status: int, body: Body)

  /** What an apiFunc did: the responses it wrote and the error it returned. */
  datatype Outcome = Outcome(written: seq<Response>, err: Option<Err>)

  /** The body makeHTTPHandlerFunc sends for an error that is no APIError. */
  const InternalError := APIError(StatusInternalServerError, "internal server error")

  const ShuttingDownError := APIError(StatusServiceUnavailable, "the server is shutting down")

  const CanceledError := APIError(StatusServiceUnavailable, "request canceled")

  /** The response makeHTTPHandlerFunc writes for a non-nil handler error:
      the APIError errors.As finds, under its own code, or a 500. */
  function ErrorResponse(e: Err): (r: Response)
    ensures r.body.ErrorJson? && r.status == r.body.error.code
    ensures AsApiError(e).Some? ==> r.body.error == AsApiError(e).value
    ensures AsApiError(e).None? ==> r.body.error == InternalError
  {
    match AsApiError(e)
    case Some(a) => Response(a.code, ErrorJson(a))
    case None => Response(StatusInternalServerError, ErrorJson(InternalError))
  }

  /** The http.HandlerFunc makeHTTPHandlerFunc(fn) builds, applied to what fn
      did: fn's own writes, then one error response exactly when fn failed. */
  function Serve(o: Outcome): (written: seq<Response>)
    ensures o.err.None? ==> written == o.written
    ensures o.err.Some? ==> |written| == |o.written| + 1 && written[..|o.written|] == o.written
    ensures o.err.Some? ==> written[|o.written|] == ErrorResponse(o.err.value)
  {
    if o.err.None? then o.written else o.written + [ErrorResponse(o.err.value)]
  }

  /** The error `fmt.Errorf("method not allowed: %s", r.Method)` for request method verb. */
  function MethodNotAllowed(verb: string): Err {
    Other("method not allowed: " + verb)
  }

  /** The status of an error response is the code of the first APIError the
      error holds, and 500 when it holds none. */
  lemma ErrorStatusByLeaves(e: Err)
    ensures ErrorResponse(e).status ==
      match FirstApi(Flatten(e))
      case Some(a) => a.code
      case None => StatusInternalServerError
  {
    AsApiErrorIsFirstLeaf(e);
  }

  /** `NewAPIServer`'s `(*APIServer, error)`, or the panic it raises when
      the telemetry provider cannot be built. */
  datatype Construction = Built(server: APIServer) | Failed(err: Err) | Panicked(err: Err)

  class APIServer {
    /** Set by InitiateShutdown, read by the readiness route. */
    var isShuttingDown: bool
    var shutdownFuncs: seq<Cleanup>
    /** Every cleanup invocation this server has made. */
    ghost var calls: seq<Call>

    /** The composite literal `&APIServer{Config: …, Logger: …}`: the flag is
        false and the cleanup list nil. */
    constructor ()
      ensures !isShuttingDown && shutdownFuncs == [] && calls == []
    {
      isShuttingDown := false;
      shutdownFuncs := [];
      calls := [];
    }

    /** A server that does hold the cleanups registered while building it. */
    constructor WithCleanups(fns: seq<Cleanup>)
      ensures !isShuttingDown && shutdownFuncs == fns && calls == []
    {
      isShuttingDown := false;
      shutdownFuncs := fns;
      calls := [];
    }

    /** Marks the server as shutting down; storing true again changes nothing. */
    method InitiateShutdown()
      modifies this`isShuttingDown
      ensures isShuttingDown
    {
      isShuttingDown := true;
    }

    /** Runs every registered cleanup once, in order, with the same ctx, and
        joins their errors without stopping at the first. The list is kept. */
    method ShutdownResources(ctx: Ctx) returns (err: Option<Err>)
      modifies this`calls
      ensures err == Accumulate(Outcomes(shutdownFuncs, ctx))
      ensures calls == old(calls) + Invocations(shutdownFuncs, ctx)
    {
      err := None;
      var i := 0;
      while i < |shutdownFuncs|
        invariant 0 <= i <= |shutdownFuncs|
        invariant err == Accumulate(Outcomes(shutdownFuncs[..i], ctx))
        invariant calls == old(calls) + Invocations(shutdownFuncs[..i], ctx)
      {
        var fn := shutdownFuncs[i];
        err := Join([err, fn.run(ctx)]);
        calls := calls + [Call(fn.name, ctx)];
        i := i + 1;
        assert Outcomes(shutdownFuncs[..i], ctx)[..i - 1] == Outcomes(shutdownFuncs[..i - 1], ctx);
      }
      assert shutdownFuncs[..i] == shutdownFuncs;
    }

    /** The /healthz route: GET reports readiness, any other method fails
        with a plain error. */
    function HandleReadiness(verb: string): (o: Outcome)
      reads this
      ensures verb == MethodGet ==> o == HandleGetReadiness()
      ensures verb != MethodGet ==> o == Outcome([], Some(MethodNotAllowed(verb)))
    {
      if verb == MethodGet then HandleGetReadiness()
      else Outcome([], Some(MethodNotAllowed(verb)))
    }

    /** GET /healthz: 200 "ok" and no error while not shutting down;
        otherwise nothing written and the 503 APIError returned. */
    function HandleGetReadiness(): (o: Outcome)
      reads this
      ensures o.err.None? <==> !isShuttingDown
      ensures !isShuttingDown ==> o.written == [Response(StatusOK, Message("ok"))]
      ensures isShuttingDown ==> o.written == [] && o.err == Some(Api(ShuttingDownError))
    {
      if !isShuttingDown then Outcome([Response(StatusOK, Message("ok"))], None)
      else Outcome([], Some(Api(ShuttingDownError)))
    }

    /** The / route: GET says hello, any other method fails with a plain error. */
    function HandleHelloWorld(verb: string, race: Race): (o: Outcome)
      ensures verb == MethodGet ==> o == HandleGetHelloWorld(race)
      ensures verb != MethodGet ==> o == Outcome([], Some(MethodNotAllowed(verb)))
    {
      if verb == MethodGet then HandleGetHelloWorld(race)
      else Outcome([], Some(MethodNotAllowed(verb)))
    }

    /** GET /: 200 "Hello, World!" when the timer fires first; the 503
        APIError "request canceled" when the request context is done first. */
    function HandleGetHelloWorld(race: Race): (o: Outcome)
      ensures o.err.None? <==> race == TimerFired
      ensures race == TimerFired ==> o.written == [Response(StatusOK, Text("Hello, World!"))]
      ensures race == RequestDone ==> o.written == [] && o.err == Some(Api(CanceledError))
    {
      match race
      case TimerFired => Outcome([Response(StatusOK, Text("Hello, World!"))], None)
      case RequestDone => Outcome([], Some(Api(CanceledError)))
    }
  }

  /** What a client of /healthz receives: 200 "ok" while the server is not
      shutting down, the 503 APIError once it is, and 500 (not 405) for any
      method but GET. */
  lemma ReadinessRoute(s: APIServer, verb: string)
    ensures Serve(s.HandleReadiness(verb)) ==
      if verb != MethodGet then [Response(StatusInternalServerError, ErrorJson(InternalError))]
      else if !s.isShuttingDown then [Response(StatusOK, Message("ok"))]
      else [Response(StatusServiceUnavailable, ErrorJson(ShuttingDownError))]
  {
  }

  /** What a client of / receives: the greeting, the 503 "request canceled"
      APIError, or 500 for any method but GET. */
  lemma HelloWorldRoute(s: APIServer, verb: string, race: Race)
    ensures Serve(s.HandleHelloWorld(verb, race)) ==
      if verb != MethodGet then [Response(StatusInternalServerError, ErrorJson(InternalError))]
      else if race == TimerFired then [Response(StatusOK, Text("Hello, World!"))]
      else [Response(StatusServiceUnavailable, ErrorJson(CanceledError))]
  {
  }

  /** NewAPIServer, given the outcome of each step it depends on: loading the
      configuration, building the logger, and building the telemetry
      provider (whose failure panics). It registers the logger's Sync and
      then the provider's Shutdown in a local list, and returns a server that
      does not hold that list. */
  method NewAPIServer(configErr: Option<Err>, loggerErr: Option<Err>, loggerSync: Cleanup,
                      otelErr: Option<Err>, otelShutdown: Cleanup)
    returns (r: Construction, ghost registered: seq<Cleanup>)
    ensures configErr.Some? ==> r == Failed(configErr.value) && registered == []
    ensures configErr.None? && loggerErr.Some? ==> r == Failed(loggerErr.value) && registered == []
    ensures configErr.None? && loggerErr.None? && otelErr.Some? ==>
      r == Panicked(otelErr.value) && registered == [loggerSync]
    ensures configErr.None? && loggerErr.None? && otelErr.None? ==>
      registered == [loggerSync, otelShutdown] &&
      r.Built? && fresh(r.server) && !r.server.isShuttingDown &&
      r.server.shutdownFuncs == [] && r.server.calls == []
  {
    var fns: seq<Cleanup> := [];
    registered := fns;
    if configErr.Some? {
      return Failed(configErr.value), registered;
    }
    if loggerErr.Some? {
      return Failed(loggerErr.value), registered;
    }
    fns := fns + [loggerSync];
    registered := fns;
    if otelErr.Some? {
      return Panicked(otelErr.value), registered;
    }
    fns := fns + [otelShutdown];
    registered := fns;
    var s := new APIServer();
    r := Built(s);
  }

  /** NewAPIServer as evidently intended: the server keeps the cleanups it
      registered. */
  method NewAPIServerKeepingCleanups(configErr: Option<Err>, loggerErr: Option<Err>, loggerSync: Cleanup,
                                     otelErr: Option<Err>, otelShutdown: Cleanup)
    returns (r: Construction)
    ensures configErr.Some? ==> r == Failed(configErr.value)
    ensures configErr.None? && loggerErr.Some? ==> r == Failed(loggerErr.value)
    ensures configErr.None? && loggerErr.None? && otelErr.Some? ==> r == Panicked(otelErr.value)
    ensures configErr.None? && loggerErr.None? && otelErr.None? ==>
      r.Built? && fresh(r.server) && !r.server.isShuttingDown &&
      r.server.shutdownFuncs == [loggerSync, otelShutdown] && r.server.calls == []
  {
    var fns: seq<Cleanup> := [];
    if configErr.Some? {
      return Failed(configErr.value);
    }
    if loggerErr.Some? {
      return Failed(loggerErr.value);
    }
    fns := fns + [loggerSync];
    if otelErr.Some? {
      return Panicked(otelErr.value);
    }
    fns := fns + [otelShutdown];
    var s := new APIServer.WithCleanups(fns);
    r := Built(s);
  }

  /** As written, the cleanups NewAPIServer registers never run: shutting the
      resources of a freshly built server down calls nothing and reports no
      error, although two cleanups were registered. */
  method RegisteredCleanupsAreLost(loggerSync: Cleanup, otelShutdown: Cleanup, ctx: Ctx)
    returns (err: Option<Err>, ghost registered: seq<Cleanup>, ghost calls: seq<Call>)
    ensures registered == [loggerSync, otelShutdown]
    ensures calls == [] && err == None
  {
    var r;
    r, registered := NewAPIServer(None, None, loggerSync, None, otelShutdown);
    var s := r.server;
    err := s.ShutdownResources(ctx);
    calls := s.calls;
  }

  /** With the cleanups kept, shutting the resources down syncs the logger,
      then shuts the telemetry provider down, and reports their errors. */
  method KeptCleanupsRun(loggerSync: Cleanup, otelShutdown: Cleanup, ctx: Ctx)
    returns (err: Option<Err>, ghost calls: seq<Call>)
    ensures calls == [Call(loggerSync.name, ctx), Call(otelShutdown.name, ctx)]
    ensures err == Accumulate([loggerSync.run(ctx), otelShutdown.run(ctx)])
  {
    var r := NewAPIServerKeepingCleanups(None, None, loggerSync, None, otelShutdown);
    var s := r.server;
    err := s.ShutdownResources(ctx);
    calls := s.calls;
    assert Outcomes([loggerSync, otelShutdown], ctx) == [loggerSync.run(ctx), otelShutdown.run(ctx)];
  }

  /** ShutdownResources is not idempotent: the list is kept, so a second call
      invokes every cleanup again and computes the same aggregate. */
  method ShutdownResourcesTwice(s: APIServer, ctx: Ctx) returns (first: Option<Err>, second: Option<Err>)
    modifies s`calls
    ensures first == second == Accumulate(Outcomes(s.shutdownFuncs, ctx))
    ensures s.calls == old(s.calls) + Invocations(s.shutdownFuncs, ctx) + Invocations(s.shutdownFuncs, ctx)
  {
    first := s.ShutdownResources(ctx);
    second := s.ShutdownResources(ctx);
  }
}
