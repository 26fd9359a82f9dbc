/**
 * List comprehensions `[x for x in xs if p(x)]` and the facts the partitioning
 * loops of the scripts rely on. Defined from the back so that a loop that appends
 * one element per step extends the filtered prefix by at most one element.
 */
module Seqs {

  /** The complement of a test. */
  function Not<T>(p: T -> bool): T -> bool
  {
    x => !p(x)
  }

  /** `x in xs` as a test: exact membership (case-sensitive for strings). */
  function InList<T(==)>(xs: seq<T>): T -> bool
  {
    x => x in xs
  }

  function Filter<T>(xs: seq<T>, p: T -> bool): (r: seq<T>)
    ensures |r| <= |xs|
  {
    if xs == [] then [] else Filter(xs[..|xs| - 1], p) + (if p(xs[|xs| - 1]) then [xs[|xs| - 1]] else [])
  }

  /** One more element at the end adds at most that element to the filtered list. */
  lemma FilterSnoc<T>(xs: seq<T>, x: T, p: T -> bool)
    ensures Filter(xs + [x], p) == Filter(xs, p) + (if p(x) then [x] else [])
  {
    assert (xs + [x])[..|xs|] == xs;
  }

  /** The filtered list holds elements of `xs` that pass the test, and nothing else. */
  lemma {:induction false} FilterMembers<T>(xs: seq<T>, p: T -> bool, x: T)
    requires x in Filter(xs, p)
    ensures x in xs && p(x)
  {
    var n := |xs|;
    if x != xs[n - 1] || !p(xs[n - 1]) {
      FilterMembers(xs[..n - 1], p, x);
    }
  }

  /** Every element of `xs` that satisfies `p` is kept. */
  lemma {:induction false} FilterKeeps<T>(xs: seq<T>, p: T -> bool, x: T)
    requires x in xs && p(x)
    ensures x in Filter(xs, p)
  {
    var n := |xs|;
    if xs[n - 1] != x {
      assert x in xs[..n - 1];
      FilterKeeps(xs[..n - 1], p, x);
    }
  }

  /** Membership in the filtered list, both directions. */
  lemma FilterIn<T>(xs: seq<T>, p: T -> bool, x: T)
    ensures x in Filter(xs, p) <==> x in xs && p(x)
  {
    if x in Filter(xs, p) {
      FilterMembers(xs, p, x);
    }
    if x in xs && p(x) {
      FilterKeeps(xs, p, x);
    }
  }

  /** Two tests that agree give the same filtered list. */
  lemma {:induction false} FilterSame<T>(xs: seq<T>, p: T -> bool, q: T -> bool)
    requires forall x :: p(x) == q(x)
    ensures Filter(xs, p) == Filter(xs, q)
  {
    if xs != [] {
      FilterSame(xs[..|xs| - 1], p, q);
    }
  }

  lemma {:induction false} FilterConcat<T>(xs: seq<T>, ys: seq<T>, p: T -> bool)
    ensures Filter(xs + ys, p) == Filter(xs, p) + Filter(ys, p)
  {
    if ys != [] {
      var n := |ys|;
      assert (xs + ys)[..|xs + ys| - 1] == xs + ys[..n - 1];
      FilterConcat(xs, ys[..n - 1], p);
    } else {
      assert xs + ys == xs;
    }
  }

  /**
   * Splitting a list into the elements that pass a test and those that fail it
   * loses nothing and invents nothing.
   */
  lemma {:induction false} FilterPartition<T>(xs: seq<T>, p: T -> bool)
    ensures multiset(Filter(xs, p)) + multiset(Filter(xs, Not(p))) == multiset(xs)
    ensures |Filter(xs, p)| + |Filter(xs, Not(p))| == |xs|
  {
    FilterSplits(xs, p);
    var yes, no := multiset(Filter(xs, p)), multiset(Filter(xs, Not(p)));
    assert |yes + no| == |yes| + |no|;
    assert |yes| == |Filter(xs, p)| && |no| == |Filter(xs, Not(p))|;
    assert |multiset(xs)| == |xs|;
  }

  lemma {:induction false} FilterSplits<T>(xs: seq<T>, p: T -> bool)
    ensures multiset(Filter(xs, p)) + multiset(Filter(xs, Not(p))) == multiset(xs)
  {
    if xs != [] {
      var n := |xs|;
      FilterSplits(xs[..n - 1], p);
      SplitSnoc(xs[..n - 1], xs[n - 1], p);
      assert xs == xs[..n - 1] + [xs[n - 1]];
    }
  }

  /** One more element lands in exactly one of the two filtered lists. */
  lemma SplitSnoc<T>(init: seq<T>, last: T, p: T -> bool)
    requires multiset(Filter(init, p)) + multiset(Filter(init, Not(p))) == multiset(init)
    ensures multiset(Filter(init + [last], p)) + multiset(Filter(init + [last], Not(p)))
         == multiset(init + [last])
  {
    FilterSnoc(init, last, p);
    FilterSnoc(init, last, Not(p));
  }

  /** A filter whose test holds of every element is the identity. */
  lemma {:induction false} FilterAll<T>(xs: seq<T>, p: T -> bool)
    requires forall i :: 0 <= i < |xs| ==> p(xs[i])
    ensures Filter(xs, p) == xs
  {
    if xs != [] {
      var n := |xs|;
      FilterAll(xs[..n - 1], p);
      assert p(xs[n - 1]);
      assert xs == xs[..n - 1] + [xs[n - 1]];
    }
  }

  /** A list without repetitions keeps that property under filtering. */
  predicate Distinct<T(==)>(xs: seq<T>)
  {
    forall i, j :: 0 <= i < j < |xs| ==> xs[i] != xs[j]
  }

  lemma {:induction false} FilterDistinct<T>(xs: seq<T>, p: T -> bool)
    requires Distinct(xs)
    ensures Distinct(Filter(xs, p))
  {
    if xs != [] {
      var n := |xs|;
      FilterDistinct(xs[..n - 1], p);
      assert xs[n - 1] !in xs[..n - 1];
      if xs[n - 1] in Filter(xs[..n - 1], p) {
        FilterMembers(xs[..n - 1], p, xs[n - 1]);
      }
    }
  }

  /** `sum(f(x) for x in xs)`. */
  function Sum<T>(xs: seq<T>, f: T -> nat): nat
  {
    if xs == [] then 0 else Sum(xs[..|xs| - 1], f) + f(xs[|xs| - 1])
  }

  lemma SumSnoc<T>(xs: seq<T>, x: T, f: T -> nat)
    ensures Sum(xs + [x], f) == Sum(xs, f) + f(x)
  {
    assert (xs + [x])[..|xs|] == xs;
  }
}
