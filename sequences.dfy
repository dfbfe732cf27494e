/** Items, generators (sequences of items) and positions of a transaction. */
module Sequences {

  /** An item symbol of a transaction. */
  type Item = int

  /** A generator: an ordered list of items; value-equal lists are the same generator. */
  type Sequence = seq<Item>

  /** A list in which no element occurs twice: an iteration order over a set or map keys, or a list of distinct objects. */
  ghost predicate Distinct<T>(xs: seq<T>)
  {
    forall i, j :: 0 <= i < j < |xs| ==> xs[i] != xs[j]
  }

  lemma DistinctSnoc<T>(xs: seq<T>, x: T)
    requires Distinct(xs) && x !in xs
    ensures Distinct(xs + [x])
  {
    forall i, j | 0 <= i < j < |xs| + 1 ensures (xs + [x])[i] != (xs + [x])[j] {
      if j == |xs| {
        assert (xs + [x])[i] == xs[i];
      }
    }
  }

  /**
   * The containment test of a generator in a transaction: `s` is a subsequence
   * of `t` (its items occur in `t` in order, gaps allowed).
   */
  predicate Contains(t: seq<Item>, s: Sequence)
    decreases |t|
  {
    if s == [] then true
    else if t == [] then false
    else if t[0] == s[0] then Contains(t[1..], s[1..])
    else Contains(t[1..], s)
  }

  /** A one-item generator is contained exactly when its item occurs in the transaction. */
  lemma {:induction false} ContainsSingleton(t: seq<Item>, x: Item)
    ensures Contains(t, [x]) <==> x in t
    decreases |t|
  {
    if t != [] {
      if t[0] != x {
        ContainsSingleton(t[1..], x);
        assert x in t <==> x in t[1..];
      }
    }
  }

  /** The positions `0 .. n-1` of a transaction of size `n`. */
  function Range(n: nat): (r: set<nat>)
    ensures forall p: nat :: p in r <==> p < n
    ensures |r| == n
  {
    if n == 0 then {} else Range(n - 1) + {n - 1}
  }

  /** A subset is no larger than its superset, and a proper subset is smaller. */
  lemma {:induction false} SubsetSize<T>(a: set<T>, b: set<T>)
    requires a <= b
    ensures |a| <= |b|
    ensures a < b ==> |a| < |b|
    decreases |a|
  {
    if a == {} {
      if a < b {
        var y :| y in b;
      }
    } else {
      var x :| x in a;
      SubsetSize(a - {x}, b - {x});
      if a < b {
        var y :| y in b && y !in a;
        assert y in b - {x} && y !in a - {x};
      }
    }
  }

  /** Disjoint sets add up. */
  lemma DisjointUnionSize<T>(a: set<T>, b: set<T>)
    requires a !! b
    ensures |a + b| == |a| + |b|
  {
    assert a * b == {};
  }

  /** A set of positions of a transaction of size `n` has at most `n` elements, and exactly `n` only when it holds them all. */
  lemma PositionsSize(s: set<nat>, n: nat)
    requires s <= Range(n)
    ensures |s| <= n
    ensures |s| == n <==> s == Range(n)
  {
    SubsetSize(s, Range(n));
  }
}
