/**
 The `/`-separated view of patterns and request paths: Go's
 `strings.Split(s, "/")` and its inverse `strings.Join(parts, "/")`.
 A string with n slashes splits into n+1 parts, and "" splits into [""].
 */
module Segments {

  /** Number of '/' characters in `s`. */
  function SlashCount(s: string): nat
  {
    if |s| == 0 then 0
    else (if s[0] == '/' then 1 else 0) + SlashCount(s[1..])
  }

  /** `strings.Join(parts, "/")`: the parts with one '/' between neighbours. */
  function Join(parts: seq<string>): string
  {
    if |parts| == 0 then ""
    else if |parts| == 1 then parts[0]
    else parts[0] + "/" + Join(parts[1..])
  }

  /** True when no part contains the separator. */
  predicate SlashFree(parts: seq<string>)
  {
    forall i :: 0 <= i < |parts| ==> '/' !in parts[i]
  }

  /** `strings.Split(s, "/")`: the maximal slash-free pieces between slashes. */
  function Split(s: string): (parts: seq<string>)
    ensures |parts| == SlashCount(s) + 1
    ensures SlashFree(parts)
    ensures Join(parts) == s
  {
    if |s| == 0 then [""]
    else
      var rest := Split(s[1..]);
      if s[0] == '/' then
        assert Join([""] + rest) == "" + "/" + Join(rest) by {
          assert ([""] + rest)[1..] == rest;
        }
        assert s == "/" + s[1..];
        [""] + rest
      else
        var first := [s[0]] + rest[0];
        assert s == [s[0]] + s[1..];
        if |rest| == 1 then
          [first]
        else
          assert ([first] + rest[1..])[1..] == rest[1..];
          assert Join(rest) == rest[0] + "/" + Join(rest[1..]);
          [first] + rest[1..]
  }

  /** A slash-free string is a single part. */
  lemma {:induction false} SplitSlashFree(s: string)
    requires '/' !in s
    ensures Split(s) == [s]
  {
    if |s| > 0 {
      assert '/' !in s[1..];
      SplitSlashFree(s[1..]);
      assert [s[0]] + s[1..] == s;
    }
  }

  /** Splitting distributes over a '/' joint: the joint separates the parts of
      `a` from the parts of `b`. */
  lemma {:induction false} SplitAtSlash(a: string, b: string)
    ensures Split(a + "/" + b) == Split(a) + Split(b)
  {
    if |a| == 0 {
      assert a + "/" + b == "/" + b;
      assert ("/" + b)[1..] == b;
    } else {
      var s := a + "/" + b;
      assert s[0] == a[0];
      assert s[1..] == a[1..] + "/" + b;
      SplitAtSlash(a[1..], b);
    }
  }

  /** Round trip in the other direction: joining slash-free parts and
      splitting again gives the parts back. */
  lemma {:induction false} SplitJoin(parts: seq<string>)
    requires |parts| >= 1
    requires SlashFree(parts)
    ensures Split(Join(parts)) == parts
  {
    if |parts| == 1 {
      SplitSlashFree(parts[0]);
    } else {
      assert '/' !in parts[0];
      SplitSlashFree(parts[0]);
      assert SlashFree(parts[1..]) by {
        forall i | 0 <= i < |parts[1..]| ensures '/' !in parts[1..][i] {
          assert parts[1..][i] == parts[i + 1];
        }
      }
      SplitJoin(parts[1..]);
      SplitAtSlash(parts[0], Join(parts[1..]));
      assert [parts[0]] + parts[1..] == parts;
    }
  }
}
