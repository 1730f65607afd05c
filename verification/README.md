# mapes router, modelled in Dafny

This project models the core of the `mapes` Go web router:

- **Pattern matcher.** `matchPattern` splits the pattern and the request path on `/` and compares them part by part. A `:name` part binds the path part at its index.
- **Route table and registration API.** The table is a map keyed by the pattern string. It is written by `add`, the method helpers (`Get`, `Post`, …), `Static`, and route groups. A group has its own prefix and middleware list.
- **Dispatcher.** `ServeHTTP` picks a route whose pattern matches the path and whose stored method equals the request method. It folds the route's middlewares around its handler, runs the result on a fresh context, and turns a non-nil error into a 500 reply. With no such route the reply is 404 `Not found`.
- **Request context.** This is the state map behind `Get`/`Set` and the parameter map behind `Param`. A missing key reads as Go's zero value.

Modules, one per component:

| file | module | models |
|---|---|---|
| `segments.dfy` | `Segments` | `strings.Split(s, "/")` and `strings.Join(parts, "/")` |
| `gomaps.dfy` | `GoMaps` | Go's map read, which yields the zero value for an absent key |
| `context.dfy` | `RequestContext` | `Context`'s state and parameter maps (`context.go`) |
| `matcher.dfy` | `Matcher` | `matchPattern` |
| `pipeline.dfy` | `Pipeline` | handlers, middlewares, the fold in `ServeHTTP`, and running the chain |
| `router.dfy` | `Router` | `Mapes`, `RouterGroup`, registration, `Use`, `Group`, `Static` |
| `dispatch.dfy` | `Dispatch` | `ServeHTTP` |
| `scenarios.dfy` | `Scenarios` | concrete requests against concrete tables |

Go handlers and middlewares are closures, so the model cannot hold them as they are. Instead they are scripted values:

- A handler is a list of steps (`Set`, `Get`, `Param`, `String`, file serving) plus whether it returns an error.
- A `Wrap` middleware runs steps, calls `next`, runs more steps, and then returns `next`'s error, nil, or an error of its own.
- A `Block` middleware runs steps and never calls `next`.

Running a chain yields a trace of events, the response writes, the error outcome, and whether the handler was reached. That is enough to state fold order, short-circuiting and error translation.

Go ranges over the route map in an unspecified order. `Dispatch.ServeHTTP` therefore chooses among the qualifying patterns with `:|` and promises only that its choice qualifies.

Behaviour of the code that the model keeps:

- **Middleware order.** The code folds in list order, so the last listed middleware is the outermost and runs first (mapes.go:46-48).
- **404 body.** The reply is status 404 with the plain body `Not found` (mapes.go:60-61).
- **Repeated parameter names.** The later position wins, because the map assignment happens in order (mapes.go:89-91).
- **Empty path parts.** A parameter binds an empty path part like any other (mapes.go:91).
- **No "already written" tracking.** Nothing records whether a response was already written. A handler that writes and then fails gets the 500 write appended after its own writes (mapes.go:50-53).

## Model

| member | source | states |
|---|---|---|
| Segments.Split | mapes.go:81-82 | splitting on `/` yields one more part than there are slashes; no part holds a slash; joining the parts with `/` gives the input back |
| Segments.SplitJoin | mapes.go:81-82 | splitting the `/`-join of a non-empty list of slash-free parts returns exactly those parts |
| Segments.SplitAtSlash | mapes.go:81-82 | the parts of `a + "/" + b` are the parts of `a` followed by the parts of `b` |
| Segments.SplitSlashFree | mapes.go:81-82 | a string without `/` splits into the single part itself |
| Matcher.MatchPattern | mapes.go:80-98 | succeeds iff the part counts are equal and every non-`:` pattern part equals the path part at its index |
| Matcher.MatchPatternBinds | mapes.go:87-97 | on success the keys are exactly the `:`-names (colon stripped), each bound to the path part at its last position |
| Matcher.MatchFromSucceeds | mapes.go:89-95 | the loop from index i returns a match iff every literal part from i on equals its path part |
| Matcher.MatchFromKeys | mapes.go:88-91 | on success the loop's map holds exactly the earlier keys plus the names of the parameter parts still to come |
| Matcher.MatchFromBinds | mapes.go:88-91 | on success each later name is bound to the path part at its last position, and earlier bindings of names not bound again survive |
| Matcher.NamesFromParam | mapes.go:90-91 | a `:` part contributes its stripped name to the bound names |
| Matcher.NamesFromLiteral | mapes.go:92-94 | a literal part contributes no name |
| Matcher.MatchRebuildsPath | mapes.go:80-98 | if the pattern's parameter names are distinct and it matches, substituting the bindings into the pattern and joining with `/` rebuilds the request path exactly |
| Matcher.MatchRecoversValues | mapes.go:80-98 | filling a pattern with distinct names with slash-free values and matching the result binds each name to its value and nothing else |
| Matcher.ExpandSlashFree | mapes.go:80-98 | filling slash-free pattern parts with slash-free values keeps every part slash-free |
| Matcher.BindsLastOfExpand | mapes.go:88-91 | with distinct names, the only bindings consistent with matching a filled-in pattern are the filling values |
| Matcher.MatchNeedsEqualCounts | mapes.go:84-86 | paths and patterns with different numbers of slashes never match, whatever their contents |
| RequestContext.NewContext | context.go:19-21 | a new context reads `nil` for every key and `""` for every parameter |
| RequestContext.Get | context.go:52-54 | a key never stored reads as `nil`; a non-`nil` result is the stored value |
| RequestContext.Set | context.go:56-58 | afterwards `Get(key)` returns the stored value, every other key reads as before, and the parameters are untouched |
| RequestContext.Param | context.go:137-139 | a bound name returns its binding and an unbound name returns `""` |
| RequestContext.WithParams | mapes.go:41-42 | after the router installs the matcher's bindings, `Param` reads them (with `""` for unbound names) and the state map is unchanged |
| RequestContext.GetAfterSets | context.go:52-58 | after a sequence of `Set` calls, `Get(k)` returns the value of the last `Set` to `k` |
| RequestContext.GetNeverSetAfter | context.go:56-58 | `Set` calls on other keys leave `Get(k)` as it was |
| RequestContext.GetNeverSet | context.go:52-54 | a key absent from the state and never `Set` reads `nil`, whatever else was set |
| Pipeline.Perform | context.go:36-58 | `Set` stores the value under its key and writes nothing; `Get` observes the stored value (or `nil`) and `Param` the binding (or `""`), changing nothing; `String` appends exactly one `(status, body)` write |
| Pipeline.Exec | context.go:36-58 | a handler's steps produce one event each, in order, all attributed to that handler; afterwards the context is the start context with the `Set` steps applied in order, and the writes are the earlier writes followed by exactly the `String` steps' writes, in order |
| Pipeline.ExecObserves | context.go:52-58 | within a run of steps, a `Get` sees the value of the last earlier `Set` to its key (or what the context held before), a `Param` sees the router's binding, and a `Set` reports the value it stored |
| Pipeline.FoldSnoc | mapes.go:44-48 | folding `ms + [m]` around a handler gives `m` wrapped around the fold of `ms` |
| Pipeline.ComposeLayers | mapes.go:44-48 | the layers of the composed handler, outermost first, are the middleware list reversed, and the handler sits at the centre |
| Pipeline.FoldLayers | mapes.go:46-48 | folding a list onto a chain puts the reversed list outside the chain's own layers and keeps its handler |
| Pipeline.OnionOrder | mapes.go:46-50 | when every middleware calls `next`, the code before `next` runs from the last listed middleware to the first, then the handler runs, then the code after `next` runs from the first to the last |
| Pipeline.ComposedRunOrder | mapes.go:44-50 | when every middleware calls `next`, the composed handler's trace runs the before-`next` code from the last listed middleware to the first, then the handler, then the after-`next` code from the first to the last |
| Pipeline.HandlerReachedIffAllCallNext | mapes.go:46-50 | the handler runs iff every middleware of the route calls `next`; one that does not stops the handler |
| Pipeline.FoldReaches | mapes.go:46-48 | a folded chain reaches its centre iff every added layer calls `next` and the inner chain reaches it |
| Pipeline.ErrorPassesThrough | mapes.go:46-51 | middlewares that return `next`'s result pass the handler's error outcome through unchanged |
| Pipeline.FoldFails | mapes.go:46-48 | layers that return `next`'s result do not change the error outcome of the chain they wrap |
| Pipeline.ExecActors | context.go:36-58 | the actor sequence of a step run is the actor repeated once per step |
| Router.New | mapes.go:32-36 | a new router has no routes and no middlewares |
| Router.Add | mapes.go:104-110 | the entry under the pattern becomes exactly (handler, method, given middlewares), replacing any earlier one; every other entry and the root middleware list are unchanged |
| Router.Register | mapes.go:112-138 | each method helper stores its own method string with exactly the given middlewares, and changes no other key |
| Router.Use | mapes.go:100-102 | the root list grows by the given middlewares appended in order; the route table is unchanged |
| Router.Group | mapes.go:160-166 | the group's list starts as the root list at creation time |
| Router.GroupAdd | mapes.go:168-174 | the entry under `prefix + path` becomes (handler, method, group list followed by the call's list); nothing else changes |
| Router.GroupRegister | mapes.go:180-206 | group method helpers store their method under `prefix + path` with the group list before the call's list |
| Router.GroupUse | mapes.go:176-178 | only the group's own list grows, by the given middlewares in order; the prefix is kept |
| Router.StaticPrefix | mapes.go:143-145 | at most one trailing `/` is removed, and the result is non-empty |
| Router.StaticPattern | mapes.go:140-157 | the key always ends in `/:_`. With no trailing `/` it is `path + "/:_"`. With exactly one trailing `/` it is `path + ":_"`. With two or more, one `/` is dropped first |
| Router.Static | mapes.go:140-158 | exactly one `GET` route is added, under the static key, with the file-serving handler and the given middlewares; nothing else changes |
| Router.ReRegisterOverwrites | mapes.go:104-110 | registering a pattern a second time, under any method, leaves only the second entry |
| Router.RootUseIgnoredByAdd | mapes.go:100-110 | root `Use` calls never reach routes registered on the router itself |
| Router.GroupSnapshot | mapes.go:160-178 | a group route's middlewares are the root list as of group creation, then the group's own `Use` additions, then the route's; later root `Use` calls are not seen |
| Router.StaticSlashInsensitive | mapes.go:143-157 | `Static(p)` and `Static(p + "/")` register the same key |
| Router.StaticServesOneSegment | mapes.go:140-158 | the static route matches its directory plus one slash-free part and binds `_` to it; a path two parts below never matches |
| Router.TrailingParamMatches | mapes.go:153-157 | a pattern ending in `/:_` matches its directory followed by any one slash-free part and binds `_` to that part |
| Router.TrailingParamRejectsDeeper | mapes.go:153-157 | a pattern ending in `/:_` never matches a path two or more parts below its directory |
| Dispatch.ServeHTTP | mapes.go:38-62 | 404 `Not found` iff no entry has a matching pattern and an equal method; otherwise one qualifying entry runs, with the matcher's bindings, its handler wrapped in its middlewares, on a fresh context, and a non-nil error appends `500 server error` |
| Dispatch.RouteContext | mapes.go:41-42 | the route runs on a context with no state and with the matcher's bindings readable through `Param` |
| Dispatch.Finish | mapes.go:50-53 | the route's own writes are kept, and one `500 server error` write is appended exactly when the chain returned an error |
| Dispatch.RegisteredRouteQualifies | mapes.go:39-40 | right after registering a pattern under a method, a request with that method is served by it iff the pattern matches the path |
| Dispatch.OverwrittenMethodLost | mapes.go:39-40 | a pattern re-registered under `POST` no longer answers `GET` |
| Scenarios.HelloScenario | mapes.go:80-98 | `/hello/:name/from/:addr` against `/hello/alice/from/paris` binds `name` to `alice` and `addr` to `paris` |
| Scenarios.EmptyPartScenario | mapes.go:88-91 | `/u/:id` matches `/u/` and binds `id` to `""` |
| Scenarios.GroupPrefixScenario | mapes.go:168-174 | `GET /x` through group `/api` is stored only under `/api/x`; it answers `GET /api/x` and nothing answers `GET /x` |
| Scenarios.OverlapScenario | mapes.go:39-40 | a parameter pattern and a literal sibling under the same directory (such as `/users/:id` and `/users/new`) both qualify for a `GET` of the literal path, so either may be served |
| Scenarios.AssetsKeyScenario | mapes.go:143-157 | `/assets` and `/assets/` both give the key `/assets/:_` |
| Scenarios.AssetsScenario | mapes.go:157 | a static key `/dir/:_` under a literal directory matches `/dir/file` and binds exactly `_` to `file` (such as `logo.png` under `/assets`) |
| Scenarios.UserScenario | mapes.go:44-50 | with middlewares `[A, B]`, B runs first; the value A stores under `user` before calling `next` is what the handler's `Get("user")` sees |

## Left out

- `Start` (mapes.go:64-78) is left out: it probes a TCP port, prints a banner and calls `http.ListenAndServe`, which is network I/O.
- Response writers (`Json`, `String`, `Status`, `None`, `SetHeader`, `AddHeader`, `SetCookie`) belong to `net/http`. A `String` call is modelled only as a `(status, body)` write appended to a list. Headers, JSON encoding and `net/http`'s handling of a second `WriteHeader` are not modelled. The write error that `String` can return is not modelled either: a handler's error outcome is a flag of the handler.
- `Bind`, `bindJson`, `bindXml`, `bindForm`, `bindUrl`, `Query`, `FormValues` and `Context()` are left out: they depend on JSON/XML decoding, reflection and URL parsing in foreign libraries.
- The file server behind `Static` (`http.FileServer`, `http.StripPrefix`, mapes.go:147-151) is one opaque `ServeFiles(prefix, "./" + root)` step that returns nil.
- Router.StaticPattern: requires a non-empty path other than `/`. For those two inputs the Go code indexes out of range (mapes.go:143 and 153) and panics, and the panic is not modelled.
- Router.StaticPrefix: the same precondition, for the same panic at mapes.go:143.
- Router.Static: the same precondition, because `Static` computes both the prefix and the key from the path (mapes.go:140-158).
- Strings are sequences of characters, while Go strings are byte strings. Splitting on `/`, the `:` test, dropping the leading `:` and part equality behave the same on both. A request path holding bytes that are not valid UTF-8 cannot be represented.
- Pipeline.Run: handlers and middlewares are scripted values, not arbitrary Go closures. A middleware here calls `next` exactly once (`Wrap`) or never (`Block`). Calling `next` twice, or deciding from the request context whether to call it or which error to return, is not modelled, so in the model who acts and the error outcome are fixed by the chain.
- Dispatch.ServeHTTP: the choice among qualifying patterns is unconstrained, because Go's map iteration order is unspecified. No registration order or specificity ranking is modelled.
- Slice aliasing through `append` on shared backing arrays (mapes.go:101, 163, 172, 177) is not modelled: middleware lists are immutable sequences. A group therefore owns a copy of the root list taken at creation. In Go, a group list taken from a root slice with spare capacity shares its backing array, so a later root `Use` (mapes.go:101) or a group registration (mapes.go:172) can overwrite the last middleware stored for an earlier route; `Router.GroupSnapshot` describes the immutable lists of the model, not that effect.
- `example/basic.go` and `example/basic/main.go` are usage demos and are not modelled. The first is written against an older API.
- Concurrency: the model is sequential. No request runs concurrently with registration.
