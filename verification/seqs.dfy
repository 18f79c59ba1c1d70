/**
 Generic sequence operations used to describe line filters: mapping, a
 filter-and-map in one pass, the first position satisfying a predicate, and
 the subsequence relation.
 */
module Seqs {
  import opened Wrappers

  /** `[f(x) for x in xs]`. */
  function Map<T, U>(f: T -> U, xs: seq<T>): (r: seq<U>)
    ensures |r| == |xs|
    ensures forall i :: 0 <= i < |xs| ==> r[i] == f(xs[i])
  {
    seq(|xs|, i requires 0 <= i < |xs| => f(xs[i]))
  }

  /** Mapping a concatenation maps each part. */
  lemma MapConcat<T, U>(f: T -> U, a: seq<T>, b: seq<T>)
    ensures Map(f, a + b) == Map(f, a) + Map(f, b)
  {
  }

  /** `[f(x).value for x in xs if f(x) is Some]`, in order. */
  function FilterMap<T, U>(f: T -> Option<U>, xs: seq<T>): (r: seq<U>)
    ensures |r| <= |xs|
  {
    if |xs| == 0 then []
    else (match f(xs[0]) case Some(y) => [y] case None => []) + FilterMap(f, xs[1..])
  }

  /** Filtering a concatenation filters each part. */
  lemma {:induction false} FilterMapConcat<T, U>(f: T -> Option<U>, a: seq<T>, b: seq<T>)
    ensures FilterMap(f, a + b) == FilterMap(f, a) + FilterMap(f, b)
    decreases |a|
  {
    if |a| == 0 {
      assert a + b == b;
    } else {
      var head := match f(a[0]) case Some(y) => [y] case None => [];
      assert (a + b)[0] == a[0];
      assert (a + b)[1..] == a[1..] + b;
      assert FilterMap(f, a + b) == head + FilterMap(f, a[1..] + b);
      FilterMapConcat(f, a[1..], b);
      assert FilterMap(f, a) == head + FilterMap(f, a[1..]);
    }
  }

  /** One more element at the end contributes its own image, if any. */
  lemma FilterMapAppend<T, U>(f: T -> Option<U>, xs: seq<T>, x: T)
    ensures FilterMap(f, xs + [x]) == FilterMap(f, xs) + (match f(x) case Some(y) => [y] case None => [])
  {
    FilterMapConcat(f, xs, [x]);
    assert FilterMap(f, [x]) == (match f(x) case Some(y) => [y] case None => []) + FilterMap(f, [x][1..]);
  }

  /** `y` is in the result exactly when some element maps to `Some(y)`. */
  lemma {:induction false} FilterMapMembership<T, U>(f: T -> Option<U>, xs: seq<T>, y: U)
    ensures y in FilterMap(f, xs) <==> exists i :: 0 <= i < |xs| && f(xs[i]) == Some(y)
    decreases |xs|
  {
    if |xs| > 0 {
      FilterMapMembership(f, xs[1..], y);
      if exists i :: 0 <= i < |xs| && f(xs[i]) == Some(y) {
        var i :| 0 <= i < |xs| && f(xs[i]) == Some(y);
        if i > 0 {
          assert xs[1..][i - 1] == xs[i];
        }
      }
      if exists i :: 0 <= i < |xs[1..]| && f(xs[1..][i]) == Some(y) {
        var i :| 0 <= i < |xs[1..]| && f(xs[1..][i]) == Some(y);
        assert xs[1..][i] == xs[i + 1];
      }
    }
  }

  /** Every element of the result satisfies whatever every image satisfies. */
  lemma {:induction false} FilterMapAll<T, U>(f: T -> Option<U>, xs: seq<T>, p: U -> bool)
    requires forall x :: f(x).Some? ==> p(f(x).value)
    ensures forall i :: 0 <= i < |FilterMap(f, xs)| ==> p(FilterMap(f, xs)[i])
    decreases |xs|
  {
    if |xs| > 0 {
      FilterMapAll(f, xs[1..], p);
    }
  }

  /** When `f` only ever keeps `g(x)`, filtering yields a subsequence of
      mapping with `g`. */
  lemma {:induction false} FilterMapSubsequence<T, U>(f: T -> Option<U>, g: T -> U, xs: seq<T>)
    requires forall x :: f(x).Some? ==> f(x).value == g(x)
    ensures IsSubsequence(FilterMap(f, xs), Map(g, xs))
    decreases |xs|
  {
    if |xs| > 0 {
      FilterMapSubsequence(f, g, xs[1..]);
      assert Map(g, xs)[1..] == Map(g, xs[1..]);
      var a := FilterMap(f, xs);
      var b := Map(g, xs);
      if f(xs[0]).Some? {
        assert a == [g(xs[0])] + FilterMap(f, xs[1..]);
        assert a[0] == b[0] && a[1..] == FilterMap(f, xs[1..]);
      } else {
        assert a == FilterMap(f, xs[1..]);
      }
    }
  }

  /** Position of the first element satisfying `p`, or `|xs|` when none does. */
  function FirstIndex<T>(p: T -> bool, xs: seq<T>): (k: nat)
    ensures k <= |xs|
    ensures forall i :: 0 <= i < k ==> !p(xs[i])
    ensures k < |xs| ==> p(xs[k])
  {
    if |xs| == 0 then 0
    else if p(xs[0]) then 0
    else 1 + FirstIndex(p, xs[1..])
  }

  /** Appending elements after a hit does not move the first hit. */
  lemma FirstIndexAppend<T>(p: T -> bool, xs: seq<T>, more: seq<T>)
    requires FirstIndex(p, xs) < |xs|
    ensures FirstIndex(p, xs + more) == FirstIndex(p, xs)
  {
    var k := FirstIndex(p, xs);
    assert (xs + more)[k] == xs[k];
  }

  /** An element without a hit in front shifts the first hit by one. */
  lemma FirstIndexCons<T>(p: T -> bool, x: T, xs: seq<T>)
    requires !p(x)
    ensures FirstIndex(p, [x] + xs) == 1 + FirstIndex(p, xs)
  {
    assert ([x] + xs)[1..] == xs;
  }

  /** `a` can be obtained from `b` by deleting elements. */
  predicate IsSubsequence<T(==)>(a: seq<T>, b: seq<T>)
    decreases |b|
  {
    || |a| == 0
    || (|b| > 0 && ((a[0] == b[0] && IsSubsequence(a[1..], b[1..])) || IsSubsequence(a, b[1..])))
  }

  /** Appending to the larger sequence keeps a subsequence a subsequence. */
  lemma {:induction false} SubsequenceExtend<T>(a: seq<T>, b: seq<T>, c: seq<T>)
    requires IsSubsequence(a, b)
    ensures IsSubsequence(a, b + c)
    decreases |b|
  {
    if |a| > 0 {
      assert (b + c)[1..] == b[1..] + c;
      if a[0] == b[0] && IsSubsequence(a[1..], b[1..]) {
        SubsequenceExtend(a[1..], b[1..], c);
      } else {
        SubsequenceExtend(a, b[1..], c);
      }
    }
  }
}
