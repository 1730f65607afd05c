/**
 The pattern matcher `matchPattern` of `mapes.go`. Pattern and path are split
 on '/'; the match fails when the part counts differ; a pattern part that
 begins with ':' binds the path part at the same index under its name (the
 ':' stripped), and every other pattern part must equal its path part.
 Bindings are assigned left to right, so a repeated name keeps the value of
 its last position. No check is made on the bound text: it may be empty.
 */
module Matcher {
  import opened Segments
  import opened GoMaps

  /** Go's `(false, nil)` is `NoMatch`; `(true, params)` is `Match(params)`. */
  datatype MatchResult = NoMatch | Match(params: map<string, string>)

  /** `strings.HasPrefix(part, ":")`. */
  predicate IsParam(part: string)
  {
    |part| > 0 && part[0] == ':'
  }

  /** `part[1:]` for a parameter part. */
  function ParamName(part: string): string
    requires IsParam(part)
  {
    part[1..]
  }

  /** The structural acceptance condition: equal part counts, and every
      literal pattern part equals the path part at its index. */
  predicate PartsAgree(pp: seq<string>, ap: seq<string>)
  {
    |pp| == |ap| && forall i :: 0 <= i < |pp| && !IsParam(pp[i]) ==> pp[i] == ap[i]
  }

  /** The names bound by the parameter parts at indices `from` and later. */
  ghost function NamesFrom(pp: seq<string>, from: nat): set<string>
  {
    set i | from <= i < |pp| && IsParam(pp[i]) :: ParamName(pp[i])
  }

  /** Index `i` is a parameter part whose name no later part binds again. */
  predicate IsLastBinding(pp: seq<string>, i: nat)
    requires i < |pp|
  {
    IsParam(pp[i]) &&
    forall j :: i < j < |pp| ==> !(IsParam(pp[j]) && ParamName(pp[j]) == ParamName(pp[i]))
  }

  /** `params` is what matching `pp` against `ap` binds: exactly the parameter
      names as keys, each bound to the path part at its last position. */
  ghost predicate BindsLast(pp: seq<string>, ap: seq<string>, params: map<string, string>)
  {
    && |pp| == |ap|
    && params.Keys == NamesFrom(pp, 0)
    && forall i :: 0 <= i < |pp| && IsLastBinding(pp, i) ==>
         ParamName(pp[i]) in params && params[ParamName(pp[i])] == ap[i]
  }

  /** No two parameter parts share a name. */
  predicate DistinctNames(pp: seq<string>)
  {
    forall i, j :: 0 <= i < j < |pp| && IsParam(pp[i]) && IsParam(pp[j]) ==>
      ParamName(pp[i]) != ParamName(pp[j])
  }

  /** The loop of `matchPattern` from index `i` on, with bindings `acc` so far. */
  function MatchFrom(pp: seq<string>, ap: seq<string>, i: nat, acc: map<string, string>): MatchResult
    requires |pp| == |ap| && i <= |pp|
    decreases |pp| - i
  {
    if i == |pp| then Match(acc)
    else if IsParam(pp[i]) then MatchFrom(pp, ap, i + 1, acc[ParamName(pp[i]) := ap[i]])
    else if pp[i] != ap[i] then NoMatch
    else MatchFrom(pp, ap, i + 1, acc)
  }

  /** The literal parts from index `i` on agree with the path. */
  predicate LiteralsAgreeFrom(pp: seq<string>, ap: seq<string>, i: nat)
    requires |pp| == |ap|
  {
    forall j :: i <= j < |pp| && !IsParam(pp[j]) ==> pp[j] == ap[j]
  }

  /** Every last binding at index `i` or later is recorded in `r`. */
  ghost predicate LastBindingsFrom(pp: seq<string>, ap: seq<string>, i: nat, r: map<string, string>)
    requires |pp| == |ap|
  {
    forall j :: i <= j < |pp| && IsLastBinding(pp, j) ==>
      ParamName(pp[j]) in r && r[ParamName(pp[j])] == ap[j]
  }

  /** `r` keeps the earlier bindings `acc` for names not bound again from `i` on. */
  ghost predicate KeepsEarlier(pp: seq<string>, i: nat, acc: map<string, string>, r: map<string, string>)
  {
    forall k :: k in acc && k !in NamesFrom(pp, i) ==> k in r && r[k] == acc[k]
  }

  /** The loop from index `i` succeeds iff the remaining literal parts agree. */
  lemma {:induction false} MatchFromSucceeds(pp: seq<string>, ap: seq<string>, i: nat, acc: map<string, string>)
    requires |pp| == |ap| && i <= |pp|
    ensures MatchFrom(pp, ap, i, acc).Match? <==> LiteralsAgreeFrom(pp, ap, i)
    decreases |pp| - i
  {
    if i < |pp| {
      if IsParam(pp[i]) {
        MatchFromSucceeds(pp, ap, i + 1, acc[ParamName(pp[i]) := ap[i]]);
      } else {
        MatchFromSucceeds(pp, ap, i + 1, acc);
      }
    }
  }

  /** A parameter part at `i` adds its name to the names bound from `i + 1`. */
  lemma NamesFromParam(pp: seq<string>, i: nat)
    requires i < |pp| && IsParam(pp[i])
    ensures NamesFrom(pp, i) == {ParamName(pp[i])} + NamesFrom(pp, i + 1)
  {
    forall k | k in NamesFrom(pp, i) ensures k in {ParamName(pp[i])} + NamesFrom(pp, i + 1) {
      var j :| i <= j < |pp| && IsParam(pp[j]) && ParamName(pp[j]) == k;
      if j > i { assert k in NamesFrom(pp, i + 1); }
    }
  }

  /** A literal part at `i` binds nothing. */
  lemma NamesFromLiteral(pp: seq<string>, i: nat)
    requires i < |pp| && !IsParam(pp[i])
    ensures NamesFrom(pp, i) == NamesFrom(pp, i + 1)
  {
    forall k | k in NamesFrom(pp, i) ensures k in NamesFrom(pp, i + 1) {
      var j :| i <= j < |pp| && IsParam(pp[j]) && ParamName(pp[j]) == k;
      assert j != i;
    }
  }

  /** The name of a last binding is not bound again later. */
  lemma LastBindingNotRebound(pp: seq<string>, i: nat)
    requires i < |pp| && IsLastBinding(pp, i)
    ensures ParamName(pp[i]) !in NamesFrom(pp, i + 1)
  {
  }

  /** On success the loop from `i` binds exactly the names of `acc` and of
      the parameter parts from `i` on. */
  lemma {:induction false} MatchFromKeys(pp: seq<string>, ap: seq<string>, i: nat, acc: map<string, string>)
    requires |pp| == |ap| && i <= |pp|
    requires MatchFrom(pp, ap, i, acc).Match?
    ensures MatchFrom(pp, ap, i, acc).params.Keys == acc.Keys + NamesFrom(pp, i)
    decreases |pp| - i
  {
    if i == |pp| {
      assert NamesFrom(pp, i) == {};
    } else if IsParam(pp[i]) {
      MatchFromKeys(pp, ap, i + 1, acc[ParamName(pp[i]) := ap[i]]);
      NamesFromParam(pp, i);
    } else {
      MatchFromKeys(pp, ap, i + 1, acc);
      NamesFromLiteral(pp, i);
    }
  }

  /** On success the loop from `i` keeps earlier bindings of names not bound
      again, and binds each later name to the path part at its last position. */
  lemma {:induction false} MatchFromBinds(pp: seq<string>, ap: seq<string>, i: nat, acc: map<string, string>)
    requires |pp| == |ap| && i <= |pp|
    requires MatchFrom(pp, ap, i, acc).Match?
    ensures LastBindingsFrom(pp, ap, i, MatchFrom(pp, ap, i, acc).params)
    ensures KeepsEarlier(pp, i, acc, MatchFrom(pp, ap, i, acc).params)
    decreases |pp| - i
  {
    if i < |pp| {
      if IsParam(pp[i]) {
        var n := ParamName(pp[i]);
        var acc' := acc[n := ap[i]];
        MatchFromBinds(pp, ap, i + 1, acc');
        NamesFromParam(pp, i);
        var r := MatchFrom(pp, ap, i + 1, acc').params;
        assert KeepsEarlier(pp, i + 1, acc', r);
        if IsLastBinding(pp, i) {
          LastBindingNotRebound(pp, i);
          assert n in r && r[n] == ap[i];
        }
        assert LastBindingsFrom(pp, ap, i + 1, r);
      } else {
        MatchFromBinds(pp, ap, i + 1, acc);
        NamesFromLiteral(pp, i);
      }
    }
  }

  /** `matchPattern(pattern, path)`: which paths a pattern accepts. What
      an accepted path binds is `MatchPatternBinds`. */
  function MatchPattern(pattern: string, path: string): (r: MatchResult)
    ensures r.Match? <==> PartsAgree(Split(pattern), Split(path))
  {
    var pp := Split(pattern);
    var ap := Split(path);
    if |pp| != |ap| then NoMatch
    else
      MatchFromSucceeds(pp, ap, 0, map[]);
      MatchFrom(pp, ap, 0, map[])
  }

  /** On success the keys are exactly the pattern's parameter names, each
      bound to the path part at its last position. */
  lemma MatchPatternBinds(pattern: string, path: string)
    requires MatchPattern(pattern, path).Match?
    ensures BindsLast(Split(pattern), Split(path), MatchPattern(pattern, path).params)
  {
    var pp := Split(pattern);
    var ap := Split(path);
    MatchFromKeys(pp, ap, 0, map[]);
    MatchFromBinds(pp, ap, 0, map[]);
  }

  /** The pattern with every parameter part replaced by its binding in
      `params` (the zero value "" when unbound). */
  function Expand(pp: seq<string>, params: map<string, string>): (xs: seq<string>)
    ensures |xs| == |pp|
  {
    seq(|pp|, i requires 0 <= i < |pp| =>
      if IsParam(pp[i]) then Read(params, ParamName(pp[i]), "") else pp[i])
  }

  /** Round trip: when a pattern with distinct parameter names matches a path,
      substituting the bindings into the pattern and joining with '/'
      rebuilds the path exactly. */
  lemma MatchRebuildsPath(pattern: string, path: string)
    requires MatchPattern(pattern, path).Match?
    requires DistinctNames(Split(pattern))
    ensures Join(Expand(Split(pattern), MatchPattern(pattern, path).params)) == path
  {
    var pp := Split(pattern);
    var ap := Split(path);
    var params := MatchPattern(pattern, path).params;
    MatchPatternBinds(pattern, path);
    forall i | 0 <= i < |pp|
      ensures Expand(pp, params)[i] == ap[i]
    {
      if IsParam(pp[i]) {
        assert IsLastBinding(pp, i);
      }
    }
    assert Expand(pp, params) == ap;
  }

  /** Filling slash-free parts with slash-free values leaves them slash-free. */
  lemma ExpandSlashFree(pp: seq<string>, values: map<string, string>)
    requires SlashFree(pp)
    requires forall k :: k in values ==> '/' !in values[k]
    ensures SlashFree(Expand(pp, values))
  {
    var xs := Expand(pp, values);
    forall i | 0 <= i < |xs| ensures '/' !in xs[i] {
      if IsParam(pp[i]) && ParamName(pp[i]) in values {
        assert '/' !in values[ParamName(pp[i])];
      }
    }
  }

  /** Bindings determined by `BindsLast` on a filled-in pattern are the
      filling values. */
  lemma BindsLastOfExpand(pp: seq<string>, values: map<string, string>, params: map<string, string>)
    requires DistinctNames(pp)
    requires BindsLast(pp, Expand(pp, values), params)
    ensures params == map k | k in NamesFrom(pp, 0) :: Read(values, k, "")
  {
    var want := map k | k in NamesFrom(pp, 0) :: Read(values, k, "");
    forall k | k in NamesFrom(pp, 0)
      ensures params[k] == want[k]
    {
      var i :| 0 <= i < |pp| && IsParam(pp[i]) && ParamName(pp[i]) == k;
      assert IsLastBinding(pp, i);
    }
  }

  /** Round trip from the other side: filling a pattern's parameters with
      slash-free values and matching the result against the pattern binds
      each name to its value. */
  lemma MatchRecoversValues(pattern: string, values: map<string, string>)
    requires DistinctNames(Split(pattern))
    requires forall k :: k in values ==> '/' !in values[k]
    ensures MatchPattern(pattern, Join(Expand(Split(pattern), values)))
      == Match(map k | k in NamesFrom(Split(pattern), 0) :: Read(values, k, ""))
  {
    var pp := Split(pattern);
    var xs := Expand(pp, values);
    ExpandSlashFree(pp, values);
    SplitJoin(xs);
    assert PartsAgree(pp, xs);
    var r := MatchPattern(pattern, Join(xs));
    MatchPatternBinds(pattern, Join(xs));
    BindsLastOfExpand(pp, values, r.params);
  }

  /** Matching fails whenever the part counts differ, whatever the parts say. */
  lemma MatchNeedsEqualCounts(pattern: string, path: string)
    requires SlashCount(pattern) != SlashCount(path)
    ensures MatchPattern(pattern, path) == NoMatch
  {
  }
}
