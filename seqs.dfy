/**
 * Sequence helpers shared by the model: `Array.prototype.filter`,
 * concatenation of batches, and positions in a list without repeats.
 */
module Seqs {

  predicate Distinct<T(==)>(xs: seq<T>) {
    forall i, j :: 0 <= i < j < |xs| ==> xs[i] != xs[j]
  }

  /** Index of the first occurrence of `x` in `xs`. */
  function Position<T(==)>(xs: seq<T>, x: T): (r: nat)
    requires x in xs
    ensures r < |xs| && xs[r] == x
    ensures forall j :: 0 <= j < r ==> xs[j] != x
  {
    if xs[0] == x then 0 else 1 + Position(xs[1..], x)
  }

  /** `xs.filter(p)`: the elements satisfying `p`, in their original order. */
  function Filter<T>(xs: seq<T>, p: T -> bool): (r: seq<T>)
    ensures |r| <= |xs|
    ensures forall i :: 0 <= i < |r| ==> r[i] in xs && p(r[i])
    ensures forall i :: 0 <= i < |xs| && p(xs[i]) ==> xs[i] in r
  {
    if |xs| == 0 then []
    else (if p(xs[0]) then [xs[0]] else []) + Filter(xs[1..], p)
  }

  /** Filtering a list without repeats keeps its order, so it has no repeats either. */
  lemma {:induction false} FilterKeepsOrder<T>(xs: seq<T>, p: T -> bool)
    requires Distinct(xs)
    ensures forall i, j :: 0 <= i < j < |Filter(xs, p)| ==>
      Position(xs, Filter(xs, p)[i]) < Position(xs, Filter(xs, p)[j])
  {
    if |xs| > 0 {
      var tail := Filter(xs[1..], p);
      FilterKeepsOrder(xs[1..], p);
      forall y | y in tail && y in xs[1..]
        ensures Position(xs, y) == 1 + Position(xs[1..], y)
      {
        var k := Position(xs[1..], y);
        assert xs[k + 1] == y;
      }
    }
  }

  /** Nothing passes a filter whose result is empty. */
  lemma FilterEmpty<T>(xs: seq<T>, p: T -> bool)
    requires |Filter(xs, p)| == 0
    ensures forall i :: 0 <= i < |xs| ==> !p(xs[i])
  {
  }

  /** Filters that agree on every element of `xs` give the same result. */
  lemma {:induction false} FilterCongruent<T>(xs: seq<T>, p: T -> bool, q: T -> bool)
    requires forall i :: 0 <= i < |xs| ==> (p(xs[i]) <==> q(xs[i]))
    ensures Filter(xs, p) == Filter(xs, q)
  {
    if |xs| > 0 {
      FilterCongruent(xs[1..], p, q);
    }
  }

  /** The concatenation of a list of lists. */
  function Flatten<T>(xss: seq<seq<T>>): seq<T> {
    if |xss| == 0 then [] else xss[0] + Flatten(xss[1..])
  }

  lemma {:induction false} FlattenAppend<T>(xss: seq<seq<T>>, ys: seq<seq<T>>)
    ensures Flatten(xss + ys) == Flatten(xss) + Flatten(ys)
  {
    if |xss| > 0 {
      assert (xss + ys)[1..] == xss[1..] + ys;
      FlattenAppend(xss[1..], ys);
    } else {
      assert xss + ys == ys;
    }
  }
}
