/**
 `Mapes.ServeHTTP`: scan the route table for a pattern that matches the
 request path and whose stored method equals the request method, run that
 route's composed handler on a fresh context carrying the matched
 parameters, and turn a non-nil error into a 500 reply. With no such route
 the reply is 404 "Not found" and no handler runs.

 Go ranges over the table in an unspecified order, so when several entries
 qualify any one of them may be chosen; the model makes that choice with
 `:|` and promises only that the chosen entry qualifies.
 */
module Dispatch {
  import opened Segments
  import opened GoMaps
  import opened RequestContext
  import opened Matcher
  import opened Pipeline
  import opened Router

  datatype Request = Request(httpMethod: string, path: string)

  /** The reply written when no route qualifies. */
  const NotFoundReply := Written(404, "Not found")

  /** The reply `ctx.String(500, "server error")` appends on a non-nil error. */
  const ErrorReply := Written(500, "server error")

  /** The condition of the scan: the pattern matches the path and the
      stored method equals the request method. */
  predicate Qualifies(app: Mapes, pattern: string, req: Request)
  {
    pattern in app.routes && MatchPattern(pattern, req.path).Match? && app.routes[pattern].httpMethod == req.httpMethod
  }

  /** The outcome of one request: either no route qualified, or exactly one
      route ran with the given bindings. */
  datatype Served =
    | NotFound(writes: seq<Written>)
    | Dispatched(pattern: string, params: map<string, string>, run: RunResult, writes: seq<Written>)

  /** The context a dispatched route runs on: fresh, with the bindings installed. */
  function RouteContext(params: map<string, string>): (c: Context)
    ensures forall k :: Get(c, k) == Nil
    ensures forall k :: Param(c, k) == Read(params, k, "")
  {
    WithParams(NewContext(), params)
  }

  /** The writes of a dispatched request: the route's own, followed by the
      500 reply when the composed handler returned an error. No check is made
      on whether something was written already. */
  function Finish(run: RunResult): (w: seq<Written>)
    ensures |w| >= |run.ex.writes| && w[..|run.ex.writes|] == run.ex.writes
    ensures run.failed <==> |w| == |run.ex.writes| + 1
    ensures run.failed ==> w[|w| - 1] == ErrorReply
    ensures !run.failed ==> w == run.ex.writes
  {
    run.ex.writes + (if run.failed then [ErrorReply] else [])
  }

  method ServeHTTP(app: Mapes, req: Request) returns (s: Served)
    ensures s.NotFound? <==> forall p :: p in app.routes ==> !Qualifies(app, p, req)
    ensures s.NotFound? ==> s.writes == [NotFoundReply]
    ensures s.Dispatched? ==> Qualifies(app, s.pattern, req)
    ensures s.Dispatched? ==> BindsLast(Split(s.pattern), Split(req.path), s.params)
    ensures s.Dispatched? ==>
      var cfg := app.routes[s.pattern];
      s.run == Run(Compose(cfg.handler, cfg.middlewares), Exchange(RouteContext(s.params), []))
    ensures s.Dispatched? ==> s.writes == Finish(s.run)
  {
    var candidates := set p | p in app.routes && Qualifies(app, p, req);
    if candidates == {} {
      forall p | p in app.routes ensures !Qualifies(app, p, req) {
        assert p !in candidates;
      }
      return NotFound([NotFoundReply]);
    }
    var pattern :| pattern in candidates;
    var params := MatchPattern(pattern, req.path).params;
    MatchPatternBinds(pattern, req.path);
    var cfg := app.routes[pattern];
    var chain := Compose(cfg.handler, cfg.middlewares);
    var run := Run(chain, Exchange(RouteContext(params), []));
    return Dispatched(pattern, params, run, Finish(run));
  }

  /** Registration and lookup agree: after registering `path` under a
      method, a request with that method qualifies for `path` exactly when
      the pattern matches, whatever was registered under `path` before. */
  lemma RegisteredRouteQualifies(m: Mapes, helper: HttpMethod, path: string, h: Handler, mws: seq<Middleware>, req: Request)
    requires req.httpMethod == helper.Name()
    ensures Qualifies(Register(m, helper, path, h, mws), path, req) <==> MatchPattern(path, req.path).Match?
  {
  }

  /** Only the last registration under a pattern string can be reached:
      a route re-registered under another method no longer answers its old
      method on that pattern. */
  lemma OverwrittenMethodLost(m: Mapes, path: string, h1: Handler, h2: Handler, mws1: seq<Middleware>, mws2: seq<Middleware>, req: Request)
    requires req.httpMethod == "GET"
    ensures !Qualifies(Add(Add(m, "GET", path, h1, mws1), "POST", path, h2, mws2), path, req)
  {
  }

}
