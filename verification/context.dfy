/**
 The per-request state of `context.go`: a key/value map of arbitrary values
 for cross-middleware communication, and the parameter map the router
 installs after matching. The writer and request handles are not modelled.
 Reads follow Go's map semantics: a missing key reads as the zero value.
 */
module RequestContext {
  import opened GoMaps

  /** A value of Go type `any`; `Nil` is its zero value. Payloads are opaque. */
  datatype Value = Nil | Val(payload: string)

  datatype Context = Context(state: map<string, Value>, params: map<string, string>)

  /** `NewContext`: a context whose state and parameter maps are both empty. */
  function NewContext(): (c: Context)
    ensures forall k :: Get(c, k) == Nil
    ensures forall k :: Param(c, k) == ""
    ensures |c.state| == 0 && |c.params| == 0
  {
    Context(map[], map[])
  }

  /** `Context.Get`: the value last stored under `key`, or `Nil` if none. */
  function Get(c: Context, key: string): (v: Value)
    ensures key !in c.state ==> v == Nil
    ensures key in c.state ==> v == c.state[key]
  {
    Read(c.state, key, Nil)
  }

  /** `Context.Set`: store `v` under `key`. */
  function Set(c: Context, key: string, v: Value): (r: Context)
    ensures Get(r, key) == v
    ensures forall k | k != key :: Get(r, k) == Get(c, k)
    ensures r.state.Keys == c.state.Keys + {key}
    ensures r.params == c.params
  {
    c.(state := c.state[key := v])
  }

  /** `Context.Param`: the binding the router installed for `key`, or "". */
  function Param(c: Context, key: string): (s: string)
    ensures key !in c.params ==> s == ""
    ensures key in c.params ==> s == c.params[key]
  {
    Read(c.params, key, "")
  }

  /** The assignment `context.params = params` the dispatcher performs after a match. */
  function WithParams(c: Context, params: map<string, string>): (r: Context)
    ensures forall k :: Param(r, k) == Read(params, k, "")
    ensures forall k :: Get(r, k) == Get(c, k)
  {
    c.(params := params)
  }

  /** A key that was never set reads as `nil`, however many other keys were set. */
  lemma {:induction false} GetNeverSet(c: Context, writes: seq<(string, Value)>, key: string)
    requires key !in c.state
    requires forall i :: 0 <= i < |writes| ==> writes[i].0 != key
    ensures Get(SetAll(c, writes), key) == Nil
  {
    GetNeverSetAfter(c, writes, key);
  }

  /** Applies a sequence of `Set` calls in order. */
  function SetAll(c: Context, writes: seq<(string, Value)>): Context
    decreases |writes|
  {
    if |writes| == 0 then c
    else SetAll(Set(c, writes[0].0, writes[0].1), writes[1..])
  }

  /** Last write wins: after a sequence of `Set` calls, `Get(k)` returns the
      value of the last write to `k`. */
  lemma {:induction false} GetAfterSets(c: Context, writes: seq<(string, Value)>, i: nat)
    requires i < |writes|
    requires forall j :: i < j < |writes| ==> writes[j].0 != writes[i].0
    ensures Get(SetAll(c, writes), writes[i].0) == writes[i].1
    decreases |writes|
  {
    var c1 := Set(c, writes[0].0, writes[0].1);
    if i == 0 {
      GetNeverSetAfter(c1, writes[1..], writes[0].0);
    } else {
      GetAfterSets(c1, writes[1..], i - 1);
    }
  }

  /** Writes to other keys leave `Get(key)` as it was. */
  lemma {:induction false} GetNeverSetAfter(c: Context, writes: seq<(string, Value)>, key: string)
    requires forall i :: 0 <= i < |writes| ==> writes[i].0 != key
    ensures Get(SetAll(c, writes), key) == Get(c, key)
    decreases |writes|
  {
    if |writes| > 0 {
      GetNeverSetAfter(Set(c, writes[0].0, writes[0].1), writes[1..], key);
    }
  }
}
