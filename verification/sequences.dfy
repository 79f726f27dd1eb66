/** Generic sequence operations behind the line operators: order-preserving
    selection, de-duplication, Python's prefix slice and reversal. */
module Sequences {

  /** `a` is obtained from `b` by deleting elements, the rest keeping their order. */
  predicate IsSubseq<T(==)>(a: seq<T>, b: seq<T>)
    decreases |b|
  {
    |a| == 0 || (|b| > 0 && ((a[0] == b[0] && IsSubseq(a[1..], b[1..])) || IsSubseq(a, b[1..])))
  }

  /** Every occurrence in a subsequence is an occurrence in the whole. */
  lemma {:induction false} SubseqMultiset<T>(a: seq<T>, b: seq<T>)
    requires IsSubseq(a, b)
    ensures multiset(a) <= multiset(b)
    decreases |b|
  {
    if |a| == 0 {
    } else {
      assert b == [b[0]] + b[1..];
      if a[0] == b[0] && IsSubseq(a[1..], b[1..]) {
        SubseqMultiset(a[1..], b[1..]);
        assert a == [a[0]] + a[1..];
      } else {
        SubseqMultiset(a, b[1..]);
      }
    }
  }

  /** The elements of `xs` that satisfy `p`, unmodified and in their original
      order (Python's built-in `filter`). */
  function Keep<T(==,!new)>(xs: seq<T>, p: T -> bool): (r: seq<T>)
    ensures IsSubseq(r, xs)
    ensures forall i | 0 <= i < |r| :: p(r[i])
    ensures forall x | p(x) :: multiset(r)[x] == multiset(xs)[x]
  {
    if |xs| == 0 then []
    else
      var rest := Keep(xs[1..], p);
      assert xs == [xs[0]] + xs[1..];
      if p(xs[0]) then [xs[0]] + rest else rest
  }

  /** The contract of `Keep` determines its result: any subsequence made of
      `p`-elements that keeps every occurrence of every `p`-element is it. */
  lemma {:induction false} KeepIsUnique<T(!new)>(xs: seq<T>, p: T -> bool, r: seq<T>)
    requires IsSubseq(r, xs)
    requires forall i | 0 <= i < |r| :: p(r[i])
    requires forall x | p(x) :: multiset(r)[x] == multiset(xs)[x]
    ensures r == Keep(xs, p)
    decreases |xs|
  {
    if |xs| == 0 {
      assert |r| == 0;
    } else {
      var h, t := xs[0], xs[1..];
      assert xs == [h] + t;
      if p(h) {
        assert multiset(r)[h] == multiset(xs)[h] == multiset(t)[h] + 1;
        if |r| == 0 {
          assert false;
        }
        if r[0] != h || !IsSubseq(r[1..], t) {
          assert IsSubseq(r, t);
          SubseqMultiset(r, t);
          assert false;
        }
        assert r == [h] + r[1..];
        forall x | p(x)
          ensures multiset(r[1..])[x] == multiset(t)[x]
        {
          assert multiset(r)[x] == multiset(r[1..])[x] + (if x == h then 1 else 0);
        }
        KeepIsUnique(t, p, r[1..]);
      } else {
        if |r| > 0 {
          assert r[0] != h;
        }
        assert IsSubseq(r, t);
        forall x | p(x)
          ensures multiset(r)[x] == multiset(t)[x]
        {
          assert x != h;
        }
        KeepIsUnique(t, p, r);
      }
    }
  }

  /** The conjunction of two element tests. */
  function Both<T>(p: T -> bool, q: T -> bool): T -> bool {
    x => p(x) && q(x)
  }

  /** Two selections in a row keep exactly the elements satisfying both. */
  lemma {:induction false} KeepKeep<T(!new)>(xs: seq<T>, p: T -> bool, q: T -> bool)
    ensures Keep(Keep(xs, p), q) == Keep(xs, Both(p, q))
  {
    if |xs| > 0 {
      KeepKeep(xs[1..], p, q);
      if p(xs[0]) {
        var kept := Keep(xs, p);
        assert kept == [xs[0]] + Keep(xs[1..], p);
        assert kept[0] == xs[0] && kept[1..] == Keep(xs[1..], p);
      }
    }
  }

  /** A predicate every element satisfies keeps the whole sequence. */
  lemma {:induction false} KeepEverything<T(!new)>(xs: seq<T>, p: T -> bool)
    requires forall i | 0 <= i < |xs| :: p(xs[i])
    ensures Keep(xs, p) == xs
  {
    if |xs| > 0 {
      KeepEverything(xs[1..], p);
      assert p(xs[0]);
      assert xs == [xs[0]] + xs[1..];
    }
  }

  predicate Distinct<T(==)>(xs: seq<T>) {
    forall i, j | 0 <= i < j < |xs| :: xs[i] != xs[j]
  }

  function Elements<T>(xs: seq<T>): set<T> {
    set x | x in xs
  }

  /** One occurrence of every element of `xs`. Which order the occurrences come
      in is a choice of this model and not part of its contract. */
  function Dedup<T(==)>(xs: seq<T>): (r: seq<T>)
    ensures Distinct(r)
    ensures Elements(r) == Elements(xs)
    ensures |r| <= |xs|
  {
    if |xs| == 0 then []
    else
      var rest := Dedup(xs[1..]);
      assert Elements(xs) == {xs[0]} + Elements(xs[1..]);
      if xs[0] in rest then rest
      else
        assert Elements([xs[0]] + rest) == {xs[0]} + Elements(rest);
        [xs[0]] + rest
  }

  /** A duplicate-free sequence occurs once per element. */
  lemma {:induction false} DistinctMultiset<T>(xs: seq<T>)
    requires Distinct(xs)
    ensures forall x :: multiset(xs)[x] == if x in xs then 1 else 0
  {
    if |xs| > 0 {
      DistinctMultiset(xs[1..]);
      assert xs == [xs[0]] + xs[1..];
      assert xs[0] !in xs[1..];
    }
  }

  /** Duplicate-free sequences with the same elements differ only in order. */
  lemma SameElementsArePermutations<T>(a: seq<T>, b: seq<T>)
    requires Distinct(a) && Distinct(b)
    requires Elements(a) == Elements(b)
    ensures multiset(a) == multiset(b)
    ensures |a| == |b|
  {
    DistinctMultiset(a);
    DistinctMultiset(b);
    forall x
      ensures multiset(a)[x] == multiset(b)[x]
    {
      assert x in a <==> x in Elements(a);
      assert x in b <==> x in Elements(b);
    }
    assert multiset(a) == multiset(b);
    assert |multiset(a)| == |multiset(b)|;
  }

  /** A duplicate-free sequence is as long as its set of elements is large. */
  lemma {:induction false} DistinctLength<T>(xs: seq<T>)
    requires Distinct(xs)
    ensures |Elements(xs)| == |xs|
  {
    if |xs| > 0 {
      DistinctLength(xs[1..]);
      assert Elements(xs) == {xs[0]} + Elements(xs[1..]);
      assert xs[0] !in Elements(xs[1..]);
    }
  }

  /** Python's `xs[:stop]`: a negative `stop` counts from the end, and the
      stop index is clamped to the bounds of `xs`. */
  function SlicePrefix<T>(xs: seq<T>, stop: int): (r: seq<T>)
    ensures r <= xs
    ensures stop >= 0 ==> |r| == if stop < |xs| then stop else |xs|
    ensures stop < 0 ==> |r| == if |xs| + stop > 0 then |xs| + stop else 0
  {
    var end := if stop < 0 then stop + |xs| else stop;
    if end <= 0 then []
    else if end >= |xs| then xs
    else xs[..end]
  }

  function Reverse<T>(xs: seq<T>): (r: seq<T>)
    ensures |r| == |xs|
    ensures forall i | 0 <= i < |xs| :: r[i] == xs[|xs| - 1 - i]
  {
    if |xs| == 0 then [] else Reverse(xs[1..]) + [xs[0]]
  }

  lemma {:induction false} ReverseMultiset<T>(xs: seq<T>)
    ensures multiset(Reverse(xs)) == multiset(xs)
  {
    if |xs| > 0 {
      ReverseMultiset(xs[1..]);
      assert xs == [xs[0]] + xs[1..];
    }
  }
}
