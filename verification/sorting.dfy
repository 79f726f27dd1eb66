/** Python's `sorted(xs)` and `sorted(xs, reverse=True)` on strings. */
module Sorting {
  import opened Sequences
  import opened Strings

  /** `a` may precede `b` in the requested direction. */
  predicate Before(a: string, b: string, descending: bool) {
    if descending then LessEq(b, a) else LessEq(a, b)
  }

  predicate Sorted(xs: seq<string>, descending: bool) {
    forall i, j | 0 <= i < j < |xs| :: Before(xs[i], xs[j], descending)
  }

  lemma BeforeTotal(a: string, b: string, descending: bool)
    ensures Before(a, b, descending) || Before(b, a, descending)
  {
    LessEqTotal(a, b);
  }

  lemma BeforeTransitive(a: string, b: string, c: string, descending: bool)
    requires Before(a, b, descending) && Before(b, c, descending)
    ensures Before(a, c, descending)
  {
    if descending {
      LessEqTransitive(c, b, a);
    } else {
      LessEqTransitive(a, b, c);
    }
  }

  /** Places `x` into an already sorted list. */
  function Insert(x: string, xs: seq<string>, descending: bool): (r: seq<string>)
    requires Sorted(xs, descending)
    ensures Sorted(r, descending)
    ensures multiset(r) == multiset(xs) + multiset{x}
  {
    if |xs| == 0 then [x]
    else if Before(x, xs[0], descending) then
      InsertFront(x, xs, descending);
      [x] + xs
    else
      var rest := Insert(x, xs[1..], descending);
      InsertBehind(x, xs, rest, descending);
      [xs[0]] + rest
  }

  lemma InsertFront(x: string, xs: seq<string>, descending: bool)
    requires |xs| > 0 && Sorted(xs, descending) && Before(x, xs[0], descending)
    ensures Sorted([x] + xs, descending)
  {
    var r := [x] + xs;
    forall i, j | 0 <= i < j < |r|
      ensures Before(r[i], r[j], descending)
    {
      if i == 0 && j > 1 {
        BeforeTransitive(x, xs[0], xs[j - 1], descending);
      }
    }
  }

  lemma InsertBehind(x: string, xs: seq<string>, rest: seq<string>, descending: bool)
    requires |xs| > 0 && Sorted(xs, descending) && !Before(x, xs[0], descending)
    requires Sorted(rest, descending)
    requires multiset(rest) == multiset(xs[1..]) + multiset{x}
    ensures Sorted([xs[0]] + rest, descending)
    ensures multiset([xs[0]] + rest) == multiset(xs) + multiset{x}
  {
    BeforeTotal(x, xs[0], descending);
    var r := [xs[0]] + rest;
    forall i, j | 0 <= i < j < |r|
      ensures Before(r[i], r[j], descending)
    {
      if i == 0 {
        var y := rest[j - 1];
        assert y in multiset(rest);
        if y != x {
          assert y in multiset(xs[1..]);
          var k :| 0 <= k < |xs[1..]| && xs[1..][k] == y;
          assert xs[k + 1] == y;
        }
      }
    }
    assert xs == [xs[0]] + xs[1..];
  }

  /** A sorted permutation of `xs` (insertion sort; any correct algorithm
      gives the same list, see `SortedPermutationIsUnique`). */
  function Sort(xs: seq<string>, descending: bool): (r: seq<string>)
    ensures Sorted(r, descending)
    ensures multiset(r) == multiset(xs)
  {
    if |xs| == 0 then []
    else
      assert xs == [xs[0]] + xs[1..];
      Insert(xs[0], Sort(xs[1..], descending), descending)
  }

  /** The head of a sorted list may precede each of its elements. */
  lemma SortedHeadFirst(xs: seq<string>, x: string, descending: bool)
    requires Sorted(xs, descending) && x in xs
    ensures Before(xs[0], x, descending)
  {
    var i :| 0 <= i < |xs| && xs[i] == x;
    if i == 0 {
      LessEqReflexive(x);
    }
  }

  lemma SameHeadSameTail(a: seq<string>, b: seq<string>)
    requires |a| > 0 && |b| > 0 && a[0] == b[0]
    requires multiset(a) == multiset(b)
    ensures multiset(a[1..]) == multiset(b[1..])
  {
    assert a == [a[0]] + a[1..] && b == [b[0]] + b[1..];
    assert multiset(a) == multiset{a[0]} + multiset(a[1..]);
    assert multiset(b) == multiset{b[0]} + multiset(b[1..]);
    forall x
      ensures multiset(a[1..])[x] == multiset(b[1..])[x]
    {
      assert multiset(a)[x] == multiset{a[0]}[x] + multiset(a[1..])[x];
      assert multiset(b)[x] == multiset{b[0]}[x] + multiset(b[1..])[x];
    }
  }

  /** Since string comparison is a total order, a list has only one sorted
      permutation in each direction. */
  lemma {:induction false} SortedPermutationIsUnique(a: seq<string>, b: seq<string>, descending: bool)
    requires Sorted(a, descending) && Sorted(b, descending)
    requires multiset(a) == multiset(b)
    ensures a == b
    decreases |a|
  {
    assert |a| == |multiset(a)| == |multiset(b)| == |b|;
    if |a| > 0 {
      assert b[0] in multiset(a) && a[0] in multiset(b);
      SortedHeadFirst(a, b[0], descending);
      SortedHeadFirst(b, a[0], descending);
      LessEqAntisymmetric(a[0], b[0]);
      SameHeadSameTail(a, b);
      SortedPermutationIsUnique(a[1..], b[1..], descending);
      assert a == [a[0]] + a[1..] && b == [b[0]] + b[1..];
    }
  }

  lemma ReverseSorted(xs: seq<string>, descending: bool)
    requires Sorted(xs, descending)
    ensures Sorted(Reverse(xs), !descending)
  {
    var r := Reverse(xs);
    forall i, j | 0 <= i < j < |r|
      ensures Before(r[i], r[j], !descending)
    {
      assert Before(xs[|xs| - 1 - j], xs[|xs| - 1 - i], descending);
    }
  }

  /** Sorting with `reverse=True` is the ascending sort reversed. */
  lemma DescendingIsReversedAscending(xs: seq<string>)
    ensures Sort(xs, true) == Reverse(Sort(xs, false))
  {
    var up := Sort(xs, false);
    ReverseSorted(up, false);
    ReverseMultiset(up);
    SortedPermutationIsUnique(Sort(xs, true), Reverse(up), true);
  }
}
