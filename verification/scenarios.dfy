/**
 Concrete requests against concrete route tables: the worked examples of
 the router's behaviour, each stated as a lemma over the model.
 */
module Scenarios {
  import opened Segments
  import opened RequestContext
  import opened Matcher
  import opened Pipeline
  import opened Router
  import opened Dispatch

  /** Reads the parts of a concrete string off a decomposition of it. */
  lemma SplitAs(s: string, parts: seq<string>)
    requires |parts| >= 1 && SlashFree(parts) && Join(parts) == s
    ensures Split(s) == parts
  {
    SplitJoin(parts);
  }

  /** A rooted two-part path `/a/b` splits into an empty first part, `a` and `b`. */
  lemma RootedPair(a: string, b: string)
    requires '/' !in a && '/' !in b
    ensures Split("/" + a + "/" + b) == ["", a, b]
  {
    assert "/" + a + "/" + b == ("" + "/" + a) + "/" + b;
    SplitAtSlash("" + "/" + a, b);
    SplitAtSlash("", a);
    SplitSlashFree(a);
    SplitSlashFree(b);
  }

  lemma HelloPatternParts()
    ensures Split("/hello/:name/from/:addr") == ["", "hello", ":name", "from", ":addr"]
  {
    SplitAs("/hello/:name/from/:addr", ["", "hello", ":name", "from", ":addr"]);
  }

  lemma HelloPathParts()
    ensures Split("/hello/alice/from/paris") == ["", "hello", "alice", "from", "paris"]
  {
    SplitAs("/hello/alice/from/paris", ["", "hello", "alice", "from", "paris"]);
  }

  lemma HelloLoop()
    ensures MatchFrom(["", "hello", ":name", "from", ":addr"], ["", "hello", "alice", "from", "paris"], 0, map[])
      == Match(map["name" := "alice", "addr" := "paris"])
  {
    var pp := ["", "hello", ":name", "from", ":addr"];
    var ap := ["", "hello", "alice", "from", "paris"];
    assert ParamName(pp[2]) == "name" && ParamName(pp[4]) == "addr";
    assert !IsParam(pp[0]) && !IsParam(pp[1]) && !IsParam(pp[3]);
    var m2 := map["name" := "alice"];
    var m4 := map["name" := "alice", "addr" := "paris"];
    assert MatchFrom(pp, ap, 4, m2) == MatchFrom(pp, ap, 5, m4);
    assert MatchFrom(pp, ap, 3, m2) == MatchFrom(pp, ap, 4, m2);
    assert MatchFrom(pp, ap, 2, map[]) == MatchFrom(pp, ap, 3, m2);
    assert MatchFrom(pp, ap, 1, map[]) == MatchFrom(pp, ap, 2, map[]);
  }

  /** `GET /hello/:name/from/:addr` against `/hello/alice/from/paris` binds
      `name` to "alice" and `addr` to "paris". */
  lemma HelloScenario()
    ensures MatchPattern("/hello/:name/from/:addr", "/hello/alice/from/paris")
      == Match(map["name" := "alice", "addr" := "paris"])
  {
    HelloPatternParts();
    HelloPathParts();
    HelloLoop();
  }

  /** An empty path part is bound like any other: `/u/:id` matches `/u/`
      with `id` bound to "". */
  lemma EmptyPartScenario()
    ensures MatchPattern("/u/:id", "/u/") == Match(map["id" := ""])
  {
    RootedPair("u", ":id");
    RootedPair("u", "");
    assert "/u/:id" == "/" + "u" + "/" + ":id" && "/u/" == "/" + "u" + "/" + "";
    var pp := ["", "u", ":id"];
    var ap := ["", "u", ""];
    assert MatchFrom(pp, ap, 2, map[]) == MatchFrom(pp, ap, 3, map["id" := ""]);
    assert MatchFrom(pp, ap, 1, map[]) == MatchFrom(pp, ap, 2, map[]);
  }

  /** A group registration lives under the prefixed key only: `GET /x`
      through group `/api` answers `GET /api/x`, and nothing answers `GET /x`. */
  lemma GroupPrefixScenario(h: Handler)
    ensures
      var app := GroupRegister(New(), Group(New(), "/api"), GET, "/x", h, []);
      && app.routes.Keys == {"/api/x"}
      && Qualifies(app, "/api/x", Request("GET", "/api/x"))
      && forall p :: !Qualifies(app, p, Request("GET", "/x"))
  {
    assert "/api" + "/x" == "/api/x";
    GroupParts();
    var app := GroupRegister(New(), Group(New(), "/api"), GET, "/x", h, []);
    assert MatchPattern("/api/x", "/x") == NoMatch;
    forall p ensures !Qualifies(app, p, Request("GET", "/x")) {
      if p in app.routes {
        assert p == "/api/x";
      }
    }
  }

  lemma GroupParts()
    ensures Split("/api/x") == ["", "api", "x"]
    ensures Split("/x") == ["", "x"]
  {
    RootedPair("api", "x");
    assert "/api/x" == "/" + "api" + "/" + "x";
    SplitAs("/x", ["", "x"]);
  }

  /** Overlapping patterns are ambiguous: a parameter pattern and a literal
      sibling, such as `/users/:id` and `/users/new`, both qualify for
      `GET /users/new`, so either may be chosen. */
  lemma OverlapScenario(dir: string, name: string, lit: string, h1: Handler, h2: Handler)
    requires '/' !in dir && '/' !in name && '/' !in lit
    requires IsParam(name) && !IsParam(lit)
    ensures
      var app := Register(Register(New(), GET, "/" + dir + "/" + name, h1, []), GET, "/" + dir + "/" + lit, h2, []);
      && Qualifies(app, "/" + dir + "/" + name, Request("GET", "/" + dir + "/" + lit))
      && Qualifies(app, "/" + dir + "/" + lit, Request("GET", "/" + dir + "/" + lit))
  {
    RootedPair(dir, name);
    RootedPair(dir, lit);
    assert PartsAgree(["", dir, name], ["", dir, lit]);
    assert PartsAgree(["", dir, lit], ["", dir, lit]);
    assert "/" + dir + "/" + name != "/" + dir + "/" + lit by {
      assert ("/" + dir + "/" + name)[|dir| + 2] == ':';
      if ("/" + dir + "/" + lit)[|dir| + 2..] == lit && |lit| > 0 {
        assert lit[0] != ':';
      }
    }
  }

  /** `Static("/assets", ...)` and `Static("/assets/", ...)` both register
      `/assets/:_`. */
  lemma AssetsKeyScenario()
    ensures StaticPattern("/assets") == "/assets/:_"
    ensures StaticPattern("/assets/") == "/assets/:_"
  {
    StaticSlashInsensitive("/assets");
    assert "/assets" + "/" == "/assets/";
    assert "/assets" + "/:_" == "/assets/:_";
  }

  /** A static key serves one file name below its directory, binding "_" to
      it and nothing else: `/assets/:_` serves `/assets/logo.png` with "_"
      bound to "logo.png". */
  lemma AssetsScenario(dir: string, file: string)
    requires '/' !in dir && '/' !in file && !IsParam(dir)
    ensures MatchPattern("/" + dir + "/" + ":_", "/" + dir + "/" + file) == Match(map["_" := file])
  {
    RootedPair(dir, ":_");
    RootedPair(dir, file);
    var pp := ["", dir, ":_"];
    var ap := ["", dir, file];
    assert ParamName(pp[2]) == "_";
    assert MatchFrom(pp, ap, 2, map[]) == MatchFrom(pp, ap, 3, map["_" := file]);
    assert MatchFrom(pp, ap, 1, map[]) == MatchFrom(pp, ap, 2, map[]);
  }

  /** Request state flows inward: middleware A stores "user" before calling
      `next`, and the handler's `Get("user")` sees it, even though the
      second-listed middleware B is the outer layer and runs first. */
  lemma UserScenario()
    ensures
      var a := Wrap("A", [Put("user", Val("alice"))], [], ReturnNext);
      var b := Wrap("B", [Lookup("user")], [], ReturnNext);
      var h := Handler("h", [Lookup("user")], false);
      Run(Compose(h, [a, b]), Exchange(RouteContext(map[]), [])).trace ==
        [ Event("B", Lookup("user"), Nil),
          Event("A", Put("user", Val("alice")), Val("alice")),
          Event("h", Lookup("user"), Val("alice")) ]
  {
    var a := Wrap("A", [Put("user", Val("alice"))], [], ReturnNext);
    var b := Wrap("B", [Lookup("user")], [], ReturnNext);
    var h := Handler("h", [Lookup("user")], false);
    assert Compose(h, [a, b]) == Wrapped(b, Wrapped(a, Terminal(h))) by {
      assert [a, b][1..] == [b];
      assert [b][1..] == [];
      assert Fold(Terminal(h), [a, b]) == Fold(Wrapped(a, Terminal(h)), [b]);
      assert Fold(Wrapped(a, Terminal(h)), [b]) == Fold(Wrapped(b, Wrapped(a, Terminal(h))), []);
    }
    var ex0 := Exchange(RouteContext(map[]), []);
    assert Exec("B", [Lookup("user")], ex0) == Effect(ex0, [Event("B", Lookup("user"), Nil)]);
    UserInnerRun(a, h, ex0);
  }

  /** The inner layer of `UserScenario`: A stores "user", then the handler reads it. */
  lemma UserInnerRun(a: Middleware, h: Handler, ex0: Exchange)
    requires a == Wrap("A", [Put("user", Val("alice"))], [], ReturnNext)
    requires h == Handler("h", [Lookup("user")], false)
    ensures Run(Wrapped(a, Terminal(h)), ex0).trace ==
      [ Event("A", Put("user", Val("alice")), Val("alice")),
        Event("h", Lookup("user"), Val("alice")) ]
  {
    var ea := Exec("A", [Put("user", Val("alice"))], ex0);
    assert ea.events == [Event("A", Put("user", Val("alice")), Val("alice"))];
    assert Get(ea.ex.ctx, "user") == Val("alice");
    var eh := Exec("h", [Lookup("user")], ea.ex);
    assert eh.events == [Event("h", Lookup("user"), Val("alice"))];
  }
}
