/** Random choices as the drills make them. A call of `Math.random()` is a draw `u` with
    0 <= u < 1 passed in by the caller; `Math.floor(u * n)` picks an index below `n`.
    The four-option builder and the shuffle of the options live here too, shared by both
    multiple-choice drills. */
module Draws {

  /** A value `Math.random()` can return. */
  predicate UnitDraw(u: real) {
    0.0 <= u < 1.0
  }

  /** Every draw of `draws` is a value `Math.random()` can return. */
  predicate UnitDraws(draws: seq<real>) {
    forall k :: 0 <= k < |draws| ==> UnitDraw(draws[k])
  }

  /** A draw scales `n` to a value in [0, n). */
  lemma ScaledDraw(u: real, n: nat)
    requires UnitDraw(u)
    ensures 0.0 <= u * n as real && (n > 0 ==> u * n as real < n as real)
  {
    var m := n as real;
    assert m - u * m == (1.0 - u) * m;
    if n > 0 {
      assert (1.0 - u) * m > 0.0;
    }
  }

  /** `Math.floor(u * n)`: an index below `n`, or 0 when `n` is 0. */
  function Index(u: real, n: nat): (i: nat)
    requires UnitDraw(u)
    ensures n == 0 ==> i == 0
    ensures n > 0 ==> i < n
  {
    ScaledDraw(u, n);
    (u * n as real).Floor
  }

  /** `pool[Math.floor(u * pool.length)]`. */
  function Pick<T>(pool: seq<T>, u: real): (x: T)
    requires |pool| > 0 && UnitDraw(u)
    ensures x in pool
  {
    pool[Index(u, |pool|)]
  }

  /** The values the first `k` draws pick from `pool`. */
  function Picks<T>(pool: seq<T>, draws: seq<real>, k: nat): set<T>
    requires |pool| > 0 && UnitDraws(draws) && k <= |draws|
  {
    if k == 0 then {} else Picks(pool, draws, k - 1) + {Pick(pool, draws[k - 1])}
  }

  /** Later draws only add to the values picked. */
  lemma {:induction false} PicksGrow<T>(pool: seq<T>, draws: seq<real>, k: nat, m: nat)
    requires |pool| > 0 && UnitDraws(draws) && k <= m <= |draws|
    ensures Picks(pool, draws, k) <= Picks(pool, draws, m)
    decreases m - k
  {
    if k < m {
      PicksGrow(pool, draws, k, m - 1);
    }
  }

  /** No value occurs twice in `s`. */
  predicate Distinct<T(==)>(s: seq<T>) {
    forall i, j :: 0 <= i < j < |s| ==> s[i] != s[j]
  }

  /** The values that occur in `s`. */
  function Elements<T(==)>(s: seq<T>): set<T> {
    set x | x in s
  }

  /** A sequence without repeats has as many distinct values as entries. */
  lemma {:induction false} DistinctCardinality<T>(s: seq<T>)
    requires Distinct(s)
    ensures |Elements(s)| == |s|
  {
    if s != [] {
      var rest := s[1..];
      assert Distinct(rest);
      DistinctCardinality(rest);
      assert Elements(s) == Elements(rest) + {s[0]};
      assert s[0] !in rest;
    }
  }

  /** A subset is no larger than its superset. */
  lemma {:induction false} SubsetCardinality<T>(a: set<T>, b: set<T>)
    requires a <= b
    ensures |a| <= |b|
    decreases b
  {
    if a != {} {
      var x :| x in a;
      SubsetCardinality(a - {x}, b - {x});
    }
  }

  /** The options loop: `options = [first]`, then each draw picks a value of `pool` that is
      appended unless already present, until there are four. Termination depends on the
      draws, so the caller supplies enough of them: together with `first` they must pick
      at least four different values.  The result has four different values, starts with
      `first`, and takes the rest from the values the draws pick. */
  method DrawOptions<T(==)>(pool: seq<T>, first: T, draws: seq<real>) returns (options: seq<T>)
    requires |pool| > 0 && UnitDraws(draws)
    requires |{first} + Picks(pool, draws, |draws|)| >= 4
    ensures |options| == 4 && options[0] == first && Distinct(options)
    ensures forall i :: 1 <= i < 4 ==> options[i] in pool
    ensures Elements(options) <= {first} + Picks(pool, draws, |draws|)
  {
    options := [first];
    var k := 0;
    while |options| < 4
      invariant 0 <= k <= |draws|
      invariant 1 <= |options| <= 4 && options[0] == first && Distinct(options)
      invariant forall i :: 1 <= i < |options| ==> options[i] in pool
      invariant Elements(options) == {first} + Picks(pool, draws, k)
      decreases |draws| - k
    {
      if k == |draws| {
        DistinctCardinality(options);
        assert false;
      }
      var opt := Pick(pool, draws[k]);
      if opt !in options {
        assert Elements(options + [opt]) == Elements(options) + {opt};
        options := options + [opt];
      }
      k := k + 1;
    }
    PicksGrow(pool, draws, k, |draws|);
  }

  /** `order` lists each index below `n` once: the outcome of a shuffle of `n` entries. */
  predicate IsOrder(order: seq<nat>, n: nat) {
    |order| == n && (forall i :: 0 <= i < n ==> order[i] < n) && Distinct(order)
  }

  /** The indices below `n`. */
  function Below(n: nat): (r: set<nat>)
    ensures forall x :: x in r <==> 0 <= x < n
    ensures |r| == n
  {
    if n == 0 then {} else Below(n - 1) + {n - 1}
  }

  /** An order lists every index below `n`: `n` different indices below `n` are all of them. */
  lemma OrderIsOnto(order: seq<nat>, n: nat, k: nat)
    requires IsOrder(order, n) && k < n
    ensures k in order
  {
    var listed := Elements(order);
    DistinctCardinality(order);
    if k !in listed {
      assert listed <= Below(n) - {k};
      SubsetCardinality(listed, Below(n) - {k});
      assert false;
    }
  }

  /** The entries of `s` rearranged by `order`: what a sort with a random comparator does. */
  function Permute<T(==)>(s: seq<T>, order: seq<nat>): (r: seq<T>)
    requires IsOrder(order, |s|)
    ensures |r| == |s|
    ensures forall i :: 0 <= i < |r| ==> r[i] in s
    ensures forall i :: 0 <= i < |s| ==> s[i] in r
    ensures Distinct(s) ==> Distinct(r)
  {
    var r := seq(|s|, i requires 0 <= i < |s| => s[order[i]]);
    assert forall k :: 0 <= k < |s| ==> s[k] in r by {
      forall k | 0 <= k < |s|
        ensures s[k] in r
      {
        OrderIsOnto(order, |s|, k);
        var i :| 0 <= i < |order| && order[i] == k;
        assert r[i] == s[k];
      }
    }
    r
  }
}
