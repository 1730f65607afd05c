/**
 Handlers and middlewares of `mapes.go` (`Handler func(*Context) error`,
 `MiddlewareHandler func(next Handler) Handler`), modelled as scripted
 values whose run produces a trace of observable steps, and the fold of
 `ServeHTTP` that wraps the handler in the route's middlewares.
 */
module Pipeline {
  import opened RequestContext

  /** One response write through `Context.String`: a status and a body. */
  datatype Written = Written(status: int, body: string)

  /** What a running handler or middleware can see and change: the request
      context and the writes made to the response so far. */
  datatype Exchange = Exchange(ctx: Context, writes: seq<Written>)

  /** One observable action of a handler or middleware. */
  datatype Step =
    | Put(key: string, value: Value)            // ctx.Set(key, value)
    | Lookup(key: string)                       // ctx.Get(key)
    | LookupParam(name: string)                 // ctx.Param(name)
    | Reply(status: int, body: string)          // ctx.String(status, body)
    | ServeFiles(stripPrefix: string, root: string)  // the opaque file server of Static

  /** A step as it happened: who took it, and the value it observed
      (the value stored for `Put`, `Nil` for steps that read nothing). */
  datatype Event = Event(actor: string, step: Step, seen: Value)

  /** A terminal handler: its steps, and whether it returns a non-nil error. */
  datatype Handler = Handler(name: string, steps: seq<Step>, fails: bool)

  /** What a middleware that called `next` returns. */
  datatype Returns = ReturnNext | ReturnNil | ReturnError

  /** A middleware: `Wrap` runs `before`, calls `next`, runs `after` and
      returns per `ret`; `Block` runs its steps and never calls `next`. */
  datatype Middleware =
    | Wrap(name: string, before: seq<Step>, after: seq<Step>, ret: Returns)
    | Block(name: string, steps: seq<Step>, fails: bool)

  /** A composed handler: the terminal handler inside layers of middleware. */
  datatype Chain = Terminal(handler: Handler) | Wrapped(layer: Middleware, next: Chain)

  datatype Effect = Effect(ex: Exchange, events: seq<Event>)

  /** The outcome of running a chain: the final exchange, the trace, whether
      the returned error is non-nil, and whether the terminal handler ran. */
  datatype RunResult = RunResult(ex: Exchange, trace: seq<Event>, failed: bool, reached: bool)

  /** One step against the exchange, as the `Context` method it stands for
      does it: `Set` stores a value and writes nothing, `Get` and `Param`
      read without changing anything, and `String` appends exactly one write. */
  function Perform(actor: string, step: Step, ex: Exchange): (e: Effect)
    ensures |e.events| == 1 && e.events[0].actor == actor && e.events[0].step == step
    ensures step.Put? ==> e.ex == Exchange(Set(ex.ctx, step.key, step.value), ex.writes)
    ensures step.Put? ==> e.events[0].seen == step.value
    ensures step.Lookup? ==> e.ex == ex && e.events[0].seen == Get(ex.ctx, step.key)
    ensures step.LookupParam? ==> e.ex == ex && e.events[0].seen == Val(Param(ex.ctx, step.name))
    ensures step.Reply? ==> e.ex == Exchange(ex.ctx, ex.writes + [Written(step.status, step.body)])
    ensures step.ServeFiles? ==> e.ex == ex
    ensures step.Reply? || step.ServeFiles? ==> e.events[0].seen == Nil
  {
    match step
    case Put(k, v) => Effect(ex.(ctx := Set(ex.ctx, k, v)), [Event(actor, step, v)])
    case Lookup(k) => Effect(ex, [Event(actor, step, Get(ex.ctx, k))])
    case LookupParam(n) => Effect(ex, [Event(actor, step, Val(Param(ex.ctx, n)))])
    case Reply(status, body) => Effect(ex.(writes := ex.writes + [Written(status, body)]), [Event(actor, step, Nil)])
    case ServeFiles(_, _) => Effect(ex, [Event(actor, step, Nil)])
  }

  /** The `Set` calls among `steps`, in order, as (key, value) writes. */
  function Puts(steps: seq<Step>): seq<(string, Value)>
    decreases |steps|
  {
    if |steps| == 0 then []
    else (if steps[0].Put? then [(steps[0].key, steps[0].value)] else []) + Puts(steps[1..])
  }

  /** The response writes among `steps`, in order. */
  function Replies(steps: seq<Step>): seq<Written>
    decreases |steps|
  {
    if |steps| == 0 then []
    else (if steps[0].Reply? then [Written(steps[0].status, steps[0].body)] else []) + Replies(steps[1..])
  }

  /** Runs `steps` in order on behalf of `actor`: one event per step, in step
      order; the context ends as the `Set` steps leave it, and the writes grow
      by exactly the `String` steps, in order. */
  function Exec(actor: string, steps: seq<Step>, ex: Exchange): (e: Effect)
    ensures |e.events| == |steps|
    ensures forall i :: 0 <= i < |steps| ==> e.events[i].actor == actor && e.events[i].step == steps[i]
    ensures e.ex.ctx == SetAll(ex.ctx, Puts(steps))
    ensures e.ex.writes == ex.writes + Replies(steps)
    decreases |steps|
  {
    if |steps| == 0 then Effect(ex, [])
    else
      var first := Perform(actor, steps[0], ex);
      var rest := Exec(actor, steps[1..], first.ex);
      SetAllFirstStep(ex.ctx, steps);
      Effect(rest.ex, first.events + rest.events)
  }

  /** What each step of a run observes: a `Get` sees the context as the
      earlier `Set` steps of the run left it, a `Param` sees the bindings
      (which steps never change), and a `Set` reports the value it stored. */
  lemma {:induction false} ExecObserves(actor: string, steps: seq<Step>, ex: Exchange, i: nat)
    requires i < |steps|
    ensures steps[i].Put? ==> Exec(actor, steps, ex).events[i].seen == steps[i].value
    ensures steps[i].Lookup? ==>
      Exec(actor, steps, ex).events[i].seen == Get(SetAll(ex.ctx, Puts(steps[..i])), steps[i].key)
    ensures steps[i].LookupParam? ==>
      Exec(actor, steps, ex).events[i].seen == Val(Param(ex.ctx, steps[i].name))
    decreases |steps|
  {
    var first := Perform(actor, steps[0], ex);
    if i > 0 {
      ExecObserves(actor, steps[1..], first.ex, i - 1);
      assert steps[..i][1..] == steps[1..][..i - 1];
      SetAllFirstStep(ex.ctx, steps[..i]);
    }
  }

  /** The `Set` steps of a list act on the context one at a time, from the first. */
  lemma SetAllFirstStep(c: Context, steps: seq<Step>)
    requires |steps| > 0
    ensures SetAll(c, Puts(steps)) ==
      SetAll(if steps[0].Put? then Set(c, steps[0].key, steps[0].value) else c, Puts(steps[1..]))
  {
    if steps[0].Put? {
      var w := [(steps[0].key, steps[0].value)];
      assert Puts(steps) == w + Puts(steps[1..]);
      assert (w + Puts(steps[1..]))[1..] == Puts(steps[1..]);
    } else {
      assert Puts(steps) == Puts(steps[1..]);
    }
  }

  /** Invokes a composed handler on an exchange. */
  function Run(c: Chain, ex: Exchange): RunResult
  {
    match c
    case Terminal(h) =>
      var e := Exec(h.name, h.steps, ex);
      RunResult(e.ex, e.events, h.fails, true)
    case Wrapped(Block(name, steps, fails), _) =>
      var e := Exec(name, steps, ex);
      RunResult(e.ex, e.events, fails, false)
    case Wrapped(Wrap(name, before, after, ret), next) =>
      var pre := Exec(name, before, ex);
      var inner := Run(next, pre.ex);
      var post := Exec(name, after, inner.ex);
      var failed := match ret
        case ReturnNext => inner.failed
        case ReturnNil => false
        case ReturnError => true;
      RunResult(post.ex, pre.events + inner.trace + post.events, failed, inner.reached)
  }

  /** The fold `for _, mw := range mws { handlers = mw(handlers) }`, starting from `c`. */
  function Fold(c: Chain, mws: seq<Middleware>): Chain
    decreases |mws|
  {
    if |mws| == 0 then c
    else Fold(Wrapped(mws[0], c), mws[1..])
  }

  /** The composed handler `ServeHTTP` invokes for a route. */
  function Compose(h: Handler, mws: seq<Middleware>): Chain
  {
    Fold(Terminal(h), mws)
  }

  /** The middlewares of a chain, outermost first. */
  function Layers(c: Chain): seq<Middleware>
  {
    match c
    case Terminal(_) => []
    case Wrapped(m, next) => [m] + Layers(next)
  }

  /** The terminal handler at the centre of a chain. */
  function Core(c: Chain): Handler
  {
    match c
    case Terminal(h) => h
    case Wrapped(_, next) => Core(next)
  }

  function Reverse<T>(xs: seq<T>): (r: seq<T>)
    ensures |r| == |xs|
    ensures forall i :: 0 <= i < |xs| ==> r[i] == xs[|xs| - 1 - i]
    decreases |xs|
  {
    if |xs| == 0 then [] else Reverse(xs[1..]) + [xs[0]]
  }

  /** Folding one more middleware on the end of the list wraps the whole
      previous chain: `Chain(h, ms + [m]) = m(Chain(h, ms))`. */
  lemma {:induction false} FoldSnoc(c: Chain, mws: seq<Middleware>, m: Middleware)
    ensures Fold(c, mws + [m]) == Wrapped(m, Fold(c, mws))
    decreases |mws|
  {
    if |mws| > 0 {
      assert (mws + [m])[1..] == mws[1..] + [m];
      FoldSnoc(Wrapped(mws[0], c), mws[1..], m);
    }
  }

  /** The fold puts the middleware list around the handler in reverse: the
      last listed middleware is the outermost layer. */
  lemma {:induction false} ComposeLayers(h: Handler, mws: seq<Middleware>)
    ensures Layers(Compose(h, mws)) == Reverse(mws)
    ensures Core(Compose(h, mws)) == h
  {
    FoldLayers(Terminal(h), mws);
  }

  lemma {:induction false} FoldLayers(c: Chain, mws: seq<Middleware>)
    ensures Layers(Fold(c, mws)) == Reverse(mws) + Layers(c)
    ensures Core(Fold(c, mws)) == Core(c)
    decreases |mws|
  {
    if |mws| > 0 {
      FoldLayers(Wrapped(mws[0], c), mws[1..]);
      assert Reverse(mws) == Reverse(mws[1..]) + [mws[0]];
    }
  }

  /** `n` copies of the actor name `a`. */
  function Repeat(a: string, n: nat): (r: seq<string>)
    ensures |r| == n
    ensures forall i :: 0 <= i < n ==> r[i] == a
  {
    seq(n, _ => a)
  }

  /** The actor of each event of a trace, in order. */
  function Actors(t: seq<Event>): (r: seq<string>)
    ensures |r| == |t|
    ensures forall i :: 0 <= i < |t| ==> r[i] == t[i].actor
  {
    seq(|t|, i requires 0 <= i < |t| => t[i].actor)
  }

  /** Who acts, in order, when a chain runs: depends on the chain alone. */
  function Shape(c: Chain): seq<string>
  {
    match c
    case Terminal(h) => Repeat(h.name, |h.steps|)
    case Wrapped(Block(name, steps, _), _) => Repeat(name, |steps|)
    case Wrapped(Wrap(name, before, after, _), next) =>
      Repeat(name, |before|) + Shape(next) + Repeat(name, |after|)
  }

  /** Whether a chain's run reaches the terminal handler: it does unless
      some layer does not call `next`. */
  function Reaches(c: Chain): bool
  {
    match c
    case Terminal(_) => true
    case Wrapped(Block(_, _, _), _) => false
    case Wrapped(Wrap(_, _, _, _), next) => Reaches(next)
  }

  /** Whether a chain's run returns a non-nil error. */
  function Fails(c: Chain): bool
  {
    match c
    case Terminal(h) => h.fails
    case Wrapped(Block(_, _, fails), _) => fails
    case Wrapped(Wrap(_, _, _, ReturnNext), next) => Fails(next)
    case Wrapped(Wrap(_, _, _, ReturnNil), _) => false
    case Wrapped(Wrap(_, _, _, ReturnError), _) => true
  }

  /** The events of `Exec` are all by its actor. */
  lemma ExecActors(actor: string, steps: seq<Step>, ex: Exchange)
    ensures Actors(Exec(actor, steps, ex).events) == Repeat(actor, |steps|)
  {
  }

  /** For scripted handlers and middlewares, the order of actors, whether
      the handler is reached and whether the run fails are fixed by the
      chain, whatever the request state. Proof helper for the ordering
      lemmas below; Go closures can depend on the context instead. */
  lemma {:induction false} RunShape(c: Chain, ex: Exchange)
    ensures Actors(Run(c, ex).trace) == Shape(c)
    ensures Run(c, ex).reached == Reaches(c)
    ensures Run(c, ex).failed == Fails(c)
  {
    match c
    case Terminal(h) =>
      ExecActors(h.name, h.steps, ex);
    case Wrapped(Block(name, steps, _), _) =>
      ExecActors(name, steps, ex);
    case Wrapped(Wrap(name, before, after, ret), next) =>
      var pre := Exec(name, before, ex);
      var inner := Run(next, pre.ex);
      var post := Exec(name, after, inner.ex);
      RunShape(next, pre.ex);
      ExecActors(name, before, ex);
      ExecActors(name, after, inner.ex);
      assert Run(c, ex).trace == pre.events + inner.trace + post.events;
      ActorsAppend(pre.events, inner.trace, post.events);
  }

  lemma ActorsAppend(a: seq<Event>, b: seq<Event>, c: seq<Event>)
    ensures Actors(a + b + c) == Actors(a) + Actors(b) + Actors(c)
  {
  }

  predicate AllWrap(mws: seq<Middleware>)
  {
    forall i :: 0 <= i < |mws| ==> mws[i].Wrap?
  }

  /** The actors of the code before `next`, outermost (last listed) first. */
  function Entering(mws: seq<Middleware>): seq<string>
    requires AllWrap(mws)
    decreases |mws|
  {
    if |mws| == 0 then []
    else Entering(mws[1..]) + Repeat(mws[0].name, |mws[0].before|)
  }

  /** The actors of the code after `next`, innermost (first listed) first. */
  function Leaving(mws: seq<Middleware>): seq<string>
    requires AllWrap(mws)
    decreases |mws|
  {
    if |mws| == 0 then []
    else Repeat(mws[0].name, |mws[0].after|) + Leaving(mws[1..])
  }

  /** Onion order of the fold: when every middleware calls `next`, the code
      before `next` runs from the last listed middleware to the first, then
      the handler, then the code after `next` from the first to the last. */
  lemma {:induction false} OnionOrder(c: Chain, mws: seq<Middleware>)
    requires AllWrap(mws)
    ensures Shape(Fold(c, mws)) == Entering(mws) + Shape(c) + Leaving(mws)
    decreases |mws|
  {
    if |mws| > 0 {
      assert AllWrap(mws[1..]);
      OnionOrder(Wrapped(mws[0], c), mws[1..]);
    }
  }

  /** Onion order of the run `ServeHTTP` performs: when every middleware
      calls `next`, the actors of the composed handler's trace are the
      before-`next` steps from the last listed middleware to the first, the
      handler's steps, then the after-`next` steps from the first to the last. */
  lemma {:induction false} ComposedRunOrder(h: Handler, mws: seq<Middleware>, ex: Exchange)
    requires AllWrap(mws)
    ensures Actors(Run(Compose(h, mws), ex).trace) == Entering(mws) + Repeat(h.name, |h.steps|) + Leaving(mws)
  {
    RunShape(Compose(h, mws), ex);
    OnionOrder(Terminal(h), mws);
  }

  /** The handler runs iff every middleware on the route calls `next`. */
  lemma {:induction false} HandlerReachedIffAllCallNext(h: Handler, mws: seq<Middleware>, ex: Exchange)
    ensures Run(Compose(h, mws), ex).reached <==> AllWrap(mws)
  {
    RunShape(Compose(h, mws), ex);
    FoldReaches(Terminal(h), mws);
  }

  lemma {:induction false} FoldReaches(c: Chain, mws: seq<Middleware>)
    ensures Reaches(Fold(c, mws)) <==> AllWrap(mws) && Reaches(c)
    decreases |mws|
  {
    if |mws| > 0 {
      FoldReaches(Wrapped(mws[0], c), mws[1..]);
      if AllWrap(mws[1..]) && mws[0].Wrap? {
        assert AllWrap(mws) by {
          forall i | 0 <= i < |mws| ensures mws[i].Wrap? {
            if i > 0 { assert mws[i] == mws[1..][i - 1]; }
          }
        }
      }
    }
  }

  /** Middlewares that return `next`'s result pass the handler's error
      through unchanged. */
  lemma {:induction false} ErrorPassesThrough(h: Handler, mws: seq<Middleware>, ex: Exchange)
    requires forall i :: 0 <= i < |mws| ==> mws[i].Wrap? && mws[i].ret == ReturnNext
    ensures Run(Compose(h, mws), ex).failed == h.fails
  {
    RunShape(Compose(h, mws), ex);
    FoldFails(Terminal(h), mws);
  }

  lemma {:induction false} FoldFails(c: Chain, mws: seq<Middleware>)
    requires forall i :: 0 <= i < |mws| ==> mws[i].Wrap? && mws[i].ret == ReturnNext
    ensures Fails(Fold(c, mws)) == Fails(c)
    decreases |mws|
  {
    if |mws| > 0 {
      FoldFails(Wrapped(mws[0], c), mws[1..]);
    }
  }
}
