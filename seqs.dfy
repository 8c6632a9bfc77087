/**
 * The list-building pattern shared by the collectors: walk a list in order, keep the
 * records a step accepts, append what the step makes of them.
 */
module Seqs {
  import opened Wrappers

  /** The list a `for x in s: ... append(...)` loop builds when `f(x)` is None for the
      skipped records and Some(y) for those that append y. */
  function FilterMap<T, U>(s: seq<T>, f: T -> Option<U>): (r: seq<U>)
    ensures |r| <= |s|
  {
    if s == [] then []
    else
      var rest := FilterMap(s[..|s| - 1], f);
      match f(s[|s| - 1])
      case Some(y) => rest + [y]
      case None => rest
  }

  /** Running the loop over one list after another appends the two outputs. */
  lemma {:induction false} FilterMapAppend<T, U>(a: seq<T>, b: seq<T>, f: T -> Option<U>)
    ensures FilterMap(a + b, f) == FilterMap(a, f) + FilterMap(b, f)
  {
    if b == [] {
      assert a + b == a;
    } else {
      var b' := b[..|b| - 1];
      assert (a + b)[..|a + b| - 1] == a + b';
      assert (a + b)[|a + b| - 1] == b[|b| - 1];
      FilterMapAppend(a, b', f);
    }
  }

  /** Whatever holds of every value the step produces holds of every output element. */
  lemma {:induction false} FilterMapAll<T, U>(s: seq<T>, f: T -> Option<U>, p: U -> bool)
    requires forall i :: 0 <= i < |s| && f(s[i]).Some? ==> p(f(s[i]).value)
    ensures forall j :: 0 <= j < |FilterMap(s, f)| ==> p(FilterMap(s, f)[j])
  {
    if s != [] {
      var s' := s[..|s| - 1];
      assert forall i :: 0 <= i < |s'| ==> s'[i] == s[i];
      FilterMapAll(s', f, p);
    }
  }

  /** Python's `sum(...)` over a list of reals. */
  function Sum(s: seq<real>): real {
    if s == [] then 0.0 else Sum(s[..|s| - 1]) + s[|s| - 1]
  }

  /** A sum of non-negative values is non-negative. */
  lemma {:induction false} SumNonNegative(s: seq<real>)
    requires forall i :: 0 <= i < |s| ==> s[i] >= 0.0
    ensures Sum(s) >= 0.0
  {
    if s != [] {
      SumNonNegative(s[..|s| - 1]);
    }
  }
}
