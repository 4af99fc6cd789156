/** Sequence helpers shared by the model: JavaScript's `Array.prototype.filter`
    and what it means for a list to keep the order of another one. */
module Seqs {

  /** `xs.filter(p)`: the elements of `xs` that satisfy `p`, in their original order. */
  function Filter<T(!new)>(xs: seq<T>, p: T -> bool): (r: seq<T>)
    ensures |r| <= |xs|
    ensures forall x :: x in r <==> x in xs && p(x)
    decreases |xs|
  {
    if xs == [] then []
    else if p(xs[0]) then [xs[0]] + Filter(xs[1..], p)
    else Filter(xs[1..], p)
  }

  /** `a` is `b` with some elements dropped and the rest in the same order. */
  predicate IsSubsequence<T(==)>(a: seq<T>, b: seq<T>)
    decreases |b|
  {
    if a == [] then true
    else if b == [] then false
    else if a[0] == b[0] then IsSubsequence(a[1..], b[1..])
    else IsSubsequence(a, b[1..])
  }

  /** Filtering a concatenation filters each part. */
  lemma {:induction false} FilterConcat<T(!new)>(a: seq<T>, b: seq<T>, p: T -> bool)
    ensures Filter(a + b, p) == Filter(a, p) + Filter(b, p)
    decreases |a|
  {
    if a == [] {
      assert a + b == b;
    } else {
      assert (a + b)[1..] == a[1..] + b;
      assert (a + b)[0] == a[0];
      FilterConcat(a[1..], b, p);
    }
  }

  /** A filter that every element passes returns the list unchanged. */
  lemma {:induction false} FilterKeepsAll<T(!new)>(xs: seq<T>, p: T -> bool)
    requires forall x :: x in xs ==> p(x)
    ensures Filter(xs, p) == xs
    decreases |xs|
  {
    if xs != [] {
      assert xs[0] in xs;
      assert forall x :: x in xs[1..] ==> x in xs;
      FilterKeepsAll(xs[1..], p);
      assert [xs[0]] + xs[1..] == xs;
    }
  }

  /** Filtering keeps every element that passes as often as it occurred, and drops the others. */
  lemma {:induction false} FilterMultiset<T(!new)>(xs: seq<T>, p: T -> bool, x: T)
    ensures multiset(Filter(xs, p))[x] == if p(x) then multiset(xs)[x] else 0
    decreases |xs|
  {
    if xs != [] {
      FilterMultiset(xs[1..], p, x);
      assert xs == [xs[0]] + xs[1..];
      assert multiset(xs) == multiset([xs[0]]) + multiset(xs[1..]);
      if p(xs[0]) {
        assert multiset(Filter(xs, p)) == multiset([xs[0]]) + multiset(Filter(xs[1..], p));
      }
    }
  }

  /** The filtered list keeps the order of the original one. */
  lemma {:induction false} FilterIsSubsequence<T(!new)>(xs: seq<T>, p: T -> bool)
    ensures IsSubsequence(Filter(xs, p), xs)
    decreases |xs|
  {
    if xs != [] {
      FilterIsSubsequence(xs[1..], p);
      var r := Filter(xs, p);
      if p(xs[0]) {
        assert r[0] == xs[0] && r[1..] == Filter(xs[1..], p);
      } else {
        SubsequenceDropFront(r, xs);
      }
    }
  }

  /** If `a` is a subsequence of the tail of `b`, it is one of `b`. */
  lemma {:induction false} SubsequenceDropFront<T(!new)>(a: seq<T>, b: seq<T>)
    requires b != [] && IsSubsequence(a, b[1..])
    ensures IsSubsequence(a, b)
    decreases |b|, 0
  {
    if a != [] && a[0] == b[0] {
      // `a[1..]` is a subsequence of `b[1..]` because `a` is one of it.
      SubsequenceTail(a, b[1..]);
    }
  }

  /** Dropping the first element of a subsequence keeps it a subsequence. */
  lemma {:induction false} SubsequenceTail<T(!new)>(a: seq<T>, b: seq<T>)
    requires a != [] && IsSubsequence(a, b)
    ensures IsSubsequence(a[1..], b)
    decreases |b|, 1
  {
    assert b != [];
    if a[0] == b[0] {
      SubsequenceDropFront(a[1..], b);
    } else {
      SubsequenceTail(a, b[1..]);
      SubsequenceDropFront(a[1..], b);
    }
  }

  /** Two filters in a row equal one filter by both conditions. */
  lemma {:induction false} FilterFilter<T(!new)>(xs: seq<T>, p: T -> bool, q: T -> bool, both: T -> bool)
    requires forall x :: both(x) == (p(x) && q(x))
    ensures Filter(Filter(xs, p), q) == Filter(xs, both)
    decreases |xs|
  {
    if xs != [] {
      FilterFilter(xs[1..], p, q, both);
      if p(xs[0]) {
        assert Filter(xs, p) == [xs[0]] + Filter(xs[1..], p);
        FilterConcat([xs[0]], Filter(xs[1..], p), q);
        assert Filter([xs[0]], q) == if q(xs[0]) then [xs[0]] else [];
      }
    }
  }

  /** A list splits into the elements that pass a test and those that fail it. */
  lemma {:induction false} FilterSplitsLength<T(!new)>(xs: seq<T>, p: T -> bool, notP: T -> bool)
    requires forall x :: notP(x) == !p(x)
    ensures |Filter(xs, p)| + |Filter(xs, notP)| == |xs|
    decreases |xs|
  {
    if xs != [] {
      FilterSplitsLength(xs[1..], p, notP);
    }
  }

  /** Filters by two tests that agree everywhere give the same list. */
  lemma {:induction false} FilterSameTest<T(!new)>(xs: seq<T>, p: T -> bool, q: T -> bool)
    requires forall x :: p(x) == q(x)
    ensures Filter(xs, p) == Filter(xs, q)
    decreases |xs|
  {
    if xs != [] {
      FilterSameTest(xs[1..], p, q);
    }
  }
}
