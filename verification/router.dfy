/**
 The route table and registration API of `mapes.go`: a map from pattern
 string to route configuration, the root middleware list kept by `Use`,
 route groups that prefix patterns and prepend a snapshot of middlewares,
 and the pattern that `Static` registers.

 The table is keyed by the pattern string alone, so registering a pattern
 again replaces the earlier entry even when the method differs. Root
 registration stores only the middlewares given to the call: the root list
 kept by `Use` reaches routes only through groups created after it.
 */
module Router {
  import opened Segments
  import opened Matcher
  import opened Pipeline

  /** The method helpers (`Get`, `Post`, ...) and the method string each one registers. */
  datatype HttpMethod = GET | POST | OPTIONS | HEAD | DELETE | PUT | PATCH
  {
    function Name(): string
    {
      match this
      case GET => "GET"
      case POST => "POST"
      case OPTIONS => "OPTIONS"
      case HEAD => "HEAD"
      case DELETE => "DELETE"
      case PUT => "PUT"
      case PATCH => "PATCH"
    }
  }

  datatype RouteConfig = RouteConfig(handler: Handler, httpMethod: string, middlewares: seq<Middleware>)

  datatype Mapes = Mapes(routes: map<string, RouteConfig>, middlewares: seq<Middleware>)

  /** A group: its prefix and its own middleware list. It writes into the
      table of the router it was created from. */
  datatype RouterGroup = RouterGroup(prefix: string, middlewares: seq<Middleware>)

  /** `New`: no routes, no middlewares. */
  function New(): (m: Mapes)
    ensures forall p :: p !in m.routes
    ensures |m.middlewares| == 0
  {
    Mapes(map[], [])
  }

  /** `Mapes.add`: the entry under `path` becomes exactly (handler, method,
      middlewares); every other entry and the root list are unchanged. */
  function Add(m: Mapes, httpMethod: string, path: string, handler: Handler, mws: seq<Middleware>): (r: Mapes)
    ensures path in r.routes && r.routes[path] == RouteConfig(handler, httpMethod, mws)
    ensures forall p :: p != path ==> (p in r.routes <==> p in m.routes)
    ensures forall p :: p != path && p in m.routes ==> r.routes[p] == m.routes[p]
    ensures r.middlewares == m.middlewares
  {
    m.(routes := m.routes[path := RouteConfig(handler, httpMethod, mws)])
  }

  /** `Get`, `Post`, `Options`, `Head`, `Delete`, `Put`, `Patch` on the router. */
  function Register(m: Mapes, helper: HttpMethod, path: string, handler: Handler, mws: seq<Middleware>): (r: Mapes)
    ensures path in r.routes && r.routes[path] == RouteConfig(handler, helper.Name(), mws)
    ensures r.routes - {path} == m.routes - {path}
    ensures r.middlewares == m.middlewares
  {
    Add(m, helper.Name(), path, handler, mws)
  }

  /** `Mapes.Use`: appends to the root list and touches no route. */
  function Use(m: Mapes, mws: seq<Middleware>): (r: Mapes)
    ensures r.routes == m.routes
    ensures |r.middlewares| == |m.middlewares| + |mws|
    ensures r.middlewares[..|m.middlewares|] == m.middlewares
    ensures r.middlewares[|m.middlewares|..] == mws
  {
    m.(middlewares := m.middlewares + mws)
  }

  /** `Mapes.Group`: a group with the given prefix whose list starts as the
      root list at this moment. */
  function Group(m: Mapes, prefix: string): (g: RouterGroup)
    ensures g.prefix == prefix && g.middlewares == m.middlewares
  {
    RouterGroup(prefix, m.middlewares)
  }

  /** `RouterGroup.add`: the entry under `prefix + path` becomes (handler,
      method, group list followed by the call's list); nothing else changes. */
  function GroupAdd(m: Mapes, g: RouterGroup, httpMethod: string, path: string, handler: Handler, mws: seq<Middleware>): (r: Mapes)
    ensures g.prefix + path in r.routes
    ensures r.routes[g.prefix + path] == RouteConfig(handler, httpMethod, g.middlewares + mws)
    ensures forall p :: p != g.prefix + path ==> (p in r.routes <==> p in m.routes)
    ensures forall p :: p != g.prefix + path && p in m.routes ==> r.routes[p] == m.routes[p]
    ensures r.middlewares == m.middlewares
  {
    Add(m, httpMethod, g.prefix + path, handler, g.middlewares + mws)
  }

  /** `Get`, `Post`, ... on a group. */
  function GroupRegister(m: Mapes, g: RouterGroup, helper: HttpMethod, path: string, handler: Handler, mws: seq<Middleware>): (r: Mapes)
    ensures g.prefix + path in r.routes
    ensures r.routes[g.prefix + path] == RouteConfig(handler, helper.Name(), g.middlewares + mws)
    ensures r.routes - {g.prefix + path} == m.routes - {g.prefix + path}
    ensures r.middlewares == m.middlewares
  {
    GroupAdd(m, g, helper.Name(), path, handler, mws)
  }

  /** `RouterGroup.Use`: appends to this group's list only. */
  function GroupUse(g: RouterGroup, mws: seq<Middleware>): (r: RouterGroup)
    ensures r.prefix == g.prefix
    ensures |r.middlewares| == |g.middlewares| + |mws|
    ensures r.middlewares[..|g.middlewares|] == g.middlewares
    ensures r.middlewares[|g.middlewares|..] == mws
  {
    g.(middlewares := g.middlewares + mws)
  }

  predicate EndsWithSlash(s: string)
  {
    |s| > 0 && s[|s| - 1] == '/'
  }

  /** The prefix `Static` strips before serving: `path` with at most one
      trailing '/' removed. */
  function StaticPrefix(path: string): (p: string)
    requires |path| > 0 && path != "/"
    ensures |p| > 0
    ensures EndsWithSlash(path) ==> path == p + "/"
    ensures !EndsWithSlash(path) ==> p == path
  {
    if EndsWithSlash(path) then path[..|path| - 1] else path
  }

  /** The key `Static` registers: the prefix with one '/' re-appended when
      it does not already end in one, followed by the parameter part ":_". */
  function StaticPattern(path: string): (key: string)
    requires |path| > 0 && path != "/"
    ensures |key| >= 3 && key[|key| - 3..] == "/:_"
    ensures !EndsWithSlash(path) ==> key == path + "/:_"
    ensures EndsWithSlash(path) && !EndsWithSlash(path[..|path| - 1]) ==> key == path + ":_"
    ensures EndsWithSlash(path) && EndsWithSlash(path[..|path| - 1]) ==> key == path[..|path| - 1] + ":_"
  {
    var p := StaticPrefix(path);
    (if !EndsWithSlash(p) then p + "/" else p) + ":_"
  }

  /** The handler `Static` registers: the file server for `"./" + fsRoot`,
      with the prefix stripped; it always returns nil. */
  function StaticHandler(prefix: string, fsRoot: string): Handler
  {
    Handler("static " + prefix, [ServeFiles(prefix, "./" + fsRoot)], false)
  }

  /** `Mapes.Static`: one GET route under `StaticPattern(path)`. */
  function Static(m: Mapes, path: string, fsRoot: string, mws: seq<Middleware>): (r: Mapes)
    requires |path| > 0 && path != "/"
    ensures StaticPattern(path) in r.routes
    ensures r.routes[StaticPattern(path)] ==
      RouteConfig(StaticHandler(StaticPrefix(path), fsRoot), "GET", mws)
    ensures r.routes.Keys == m.routes.Keys + {StaticPattern(path)}
    ensures forall p :: p != StaticPattern(path) && p in m.routes ==> r.routes[p] == m.routes[p]
    ensures r.middlewares == m.middlewares
  {
    Register(m, GET, StaticPattern(path), StaticHandler(StaticPrefix(path), fsRoot), mws)
  }

  /** Registering a pattern again, under any method, replaces the earlier
      entry completely. */
  lemma ReRegisterOverwrites(m: Mapes, path: string,
                             method1: string, h1: Handler, mws1: seq<Middleware>,
                             method2: string, h2: Handler, mws2: seq<Middleware>)
    ensures Add(Add(m, method1, path, h1, mws1), method2, path, h2, mws2) == Add(m, method2, path, h2, mws2)
  {
  }

  /** The root list never reaches routes registered on the router itself:
      `Use` before `Add` yields the same table as `Add` alone. */
  lemma RootUseIgnoredByAdd(m: Mapes, xs: seq<Middleware>, httpMethod: string, path: string, h: Handler, mws: seq<Middleware>)
    ensures Add(Use(m, xs), httpMethod, path, h, mws).routes == Add(m, httpMethod, path, h, mws).routes
  {
  }

  /** A group keeps the root list as it was when the group was created:
      root `Use` calls after that are not seen by the group's routes, while
      the group's own `Use` calls are, before the route's own list. */
  lemma GroupSnapshot(m: Mapes, prefix: string, later: seq<Middleware>, gx: seq<Middleware>,
                      httpMethod: string, path: string, h: Handler, mws: seq<Middleware>)
    ensures
      var g := GroupUse(Group(m, prefix), gx);
      var r := GroupAdd(Use(m, later), g, httpMethod, path, h, mws);
      r.routes[prefix + path] == RouteConfig(h, httpMethod, m.middlewares + gx + mws)
  {
  }

  /** A '/' after a prefix without one changes nothing: `/assets` and
      `/assets/` register the same key. */
  lemma StaticSlashInsensitive(path: string)
    requires |path| > 0 && !EndsWithSlash(path)
    ensures StaticPattern(path + "/") == StaticPattern(path)
  {
    assert (path + "/")[..|path + "/"| - 1] == path;
  }

  /** The static route serves exactly one path part below its directory:
      `dir/seg` matches and binds "_" to `seg`; `dir/a/b` never matches. */
  lemma StaticServesOneSegment(path: string, seg: string, a: string, b: string)
    requires |path| > 0 && path != "/"
    requires '/' !in seg
    ensures
      var key := StaticPattern(path);
      var dir := key[..|key| - 3];
      && MatchPattern(key, dir + "/" + seg).Match?
      && "_" in MatchPattern(key, dir + "/" + seg).params
      && MatchPattern(key, dir + "/" + seg).params["_"] == seg
      && MatchPattern(key, dir + "/" + a + "/" + b) == NoMatch
  {
    var key := StaticPattern(path);
    var dir := key[..|key| - 3];
    assert key == dir + "/" + ":_";
    TrailingParamMatches(dir, seg);
    TrailingParamRejectsDeeper(dir, a, b);
  }

  /** `dir/:_` matches `dir/seg` for a slash-free `seg`, binding "_" to it. */
  lemma TrailingParamMatches(dir: string, seg: string)
    requires '/' !in seg
    ensures MatchPattern(dir + "/" + ":_", dir + "/" + seg).Match?
    ensures "_" in MatchPattern(dir + "/" + ":_", dir + "/" + seg).params
    ensures MatchPattern(dir + "/" + ":_", dir + "/" + seg).params["_"] == seg
  {
    SplitAtSlash(dir, ":_");
    SplitSlashFree(":_");
    SplitAtSlash(dir, seg);
    SplitSlashFree(seg);
    var pp := Split(dir + "/" + ":_");
    var ap := Split(dir + "/" + seg);
    assert pp == Split(dir) + [":_"];
    assert ap == Split(dir) + [seg];
    assert PartsAgree(pp, ap);
    MatchPatternBinds(dir + "/" + ":_", dir + "/" + seg);
    assert IsLastBinding(pp, |pp| - 1);
    assert ParamName(pp[|pp| - 1]) == "_";
  }

  /** `dir/:_` does not match a path two parts below `dir`. */
  lemma TrailingParamRejectsDeeper(dir: string, a: string, b: string)
    ensures MatchPattern(dir + "/" + ":_", dir + "/" + a + "/" + b) == NoMatch
  {
    SplitAtSlash(dir, ":_");
    SplitSlashFree(":_");
    SplitAtSlash(dir + "/" + a, b);
    SplitAtSlash(dir, a);
  }
}
