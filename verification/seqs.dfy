/** `Array.prototype.filter` on sequences, with the characterisation every
    page list relies on: the result is the order-preserving subsequence of
    exactly the kept elements. */
module Seqs {

  /** `a` can be obtained from `b` by deleting elements, order kept */
  predicate IsSubsequence<T(==)>(a: seq<T>, b: seq<T>)
    decreases |b|
  {
    if a == [] then true
    else if b == [] then false
    else if a[0] == b[0] then IsSubsequence(a[1..], b[1..])
    else IsSubsequence(a, b[1..])
  }

  /** The specification of a filter, independent of how it is computed:
      `r` is a subsequence of `xs`, holds only kept elements, and holds every
      kept element as often as `xs` does. */
  ghost predicate IsFilterOf<T(!new)>(r: seq<T>, xs: seq<T>, keep: T -> bool) {
    && IsSubsequence(r, xs)
    && (forall x :: x in r ==> keep(x))
    && (forall x :: keep(x) ==> multiset(r)[x] == multiset(xs)[x])
  }

  /** Dropping the head of the longer sequence keeps a subsequence relation */
  lemma {:induction false} SubsequenceCons<T>(a: seq<T>, x: T, b: seq<T>)
    requires IsSubsequence(a, b)
    ensures IsSubsequence(a, [x] + b)
    decreases |b|, 1
  {
    var xb := [x] + b;
    assert xb[1..] == b;
    if a != [] && a[0] == x {
      SubsequenceTail(a, b);
    }
  }

  /** A subsequence of `b` minus its head is a subsequence of `b` minus its head */
  lemma {:induction false} SubsequenceTail<T>(a: seq<T>, b: seq<T>)
    requires a != [] && IsSubsequence(a, b)
    ensures IsSubsequence(a[1..], b)
    decreases |b|, 0
  {
    assert b != [];
    if a[0] == b[0] {
      var x := b[0];
      SubsequenceCons(a[1..], x, b[1..]);
      assert [x] + b[1..] == b;
    } else {
      SubsequenceTail(a, b[1..]);
      SubsequenceCons(a[1..], b[0], b[1..]);
      assert [b[0]] + b[1..] == b;
    }
  }

  /** A subsequence never holds an element more often than the original */
  lemma {:induction false} SubsequenceMultiset<T>(a: seq<T>, b: seq<T>)
    requires IsSubsequence(a, b)
    ensures multiset(a) <= multiset(b)
    decreases |b|
  {
    if a == [] {
    } else if a[0] == b[0] {
      SubsequenceMultiset(a[1..], b[1..]);
      assert a == [a[0]] + a[1..];
      assert b == [b[0]] + b[1..];
    } else {
      SubsequenceMultiset(a, b[1..]);
      assert b == [b[0]] + b[1..];
    }
  }

  /** `xs.filter(keep)` */
  function Select<T(!new)>(xs: seq<T>, keep: T -> bool): (r: seq<T>)
    ensures IsSubsequence(r, xs)
    ensures forall x :: x in r <==> x in xs && keep(x)
    ensures forall x :: keep(x) ==> multiset(r)[x] == multiset(xs)[x]
    ensures (forall i :: 0 <= i < |xs| ==> keep(xs[i])) ==> r == xs
    decreases |xs|
  {
    if xs == [] then []
    else
      var rest := Select(xs[1..], keep);
      assert xs == [xs[0]] + xs[1..];
      if keep(xs[0]) then
        var r := [xs[0]] + rest;
        assert r[1..] == rest;
        r
      else
        SubsequenceCons(rest, xs[0], xs[1..]);
        rest
  }

  /** The filter specification has exactly one solution, and `Select`
      computes it: the reference definition and the computation agree. */
  lemma {:induction false} FilterUnique<T(!new)>(r: seq<T>, xs: seq<T>, keep: T -> bool)
    requires IsFilterOf(r, xs, keep)
    ensures r == Select(xs, keep)
    decreases |xs|
  {
    if xs == [] {
      assert r == [];
    } else {
      var x := xs[0];
      var tail := xs[1..];
      assert xs == [x] + tail;
      if keep(x) {
        assert multiset(r)[x] == multiset(xs)[x] >= 1;
        assert r != [];
        if r[0] != x {
          SubsequenceMultiset(r, tail);
          assert false;
        }
        assert r == [x] + r[1..];
        forall y | keep(y) ensures multiset(r[1..])[y] == multiset(tail)[y] {
          assert multiset(r)[y] == multiset([x])[y] + multiset(r[1..])[y];
          assert multiset(xs)[y] == multiset([x])[y] + multiset(tail)[y];
        }
        forall y | y in r[1..] ensures keep(y) {
          assert y in r;
        }
        FilterUnique(r[1..], tail, keep);
      } else {
        if r != [] {
          assert r[0] in r;
          assert r[0] != x;
        }
        assert IsSubsequence(r, tail);
        forall y | keep(y) ensures multiset(r)[y] == multiset(tail)[y] {
          assert multiset(xs)[y] == multiset([x])[y] + multiset(tail)[y];
        }
        FilterUnique(r, tail, keep);
      }
    }
  }

  /** Filtering with a test that rejects nothing in `xs` returns `xs` itself */
  lemma SelectAll<T(!new)>(xs: seq<T>, keep: T -> bool)
    requires forall i :: 0 <= i < |xs| ==> keep(xs[i])
    ensures Select(xs, keep) == xs
  {
  }
}
