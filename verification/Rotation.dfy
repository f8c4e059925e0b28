/** Counting round a circle: m consecutive positions visit each residue exactly once. */
module Rotation {

  /** Positions 0..n-1 in some order. */
  predicate Permutation(order: seq<nat>, n: nat) {
    && |order| == n
    && (forall i :: 0 <= i < n ==> order[i] < n)
    && (forall i, j :: 0 <= i < j < n ==> order[i] != order[j])
  }

  /** The circle 0..n-1 read from `start`. */
  function Rotated(start: nat, n: nat): (r: seq<nat>)
    requires n > 0
    ensures |r| == n
  {
    seq(n, i => (start + i) % n)
  }

  lemma ProductStep(k: int, m: int)
    ensures (k + 1) * m == k * m + m
  {
  }

  lemma {:induction false} ProductAtLeast(k: nat, m: nat)
    requires k >= 1
    ensures k * m >= m
  {
    if k > 1 {
      ProductAtLeast(k - 1, m);
      ProductStep(k - 1, m);
    }
  }

  lemma DivisionStep(p: int, q: int, m: int)
    ensures (q - p) * m == q * m - p * m
  {
  }

  lemma SameResidue(a: nat, b: nat, m: nat)
    requires a <= b < a + m && a % m == b % m
    ensures a == b
  {
    var p, q := a / m, b / m;
    assert a == p * m + a % m && b == q * m + b % m;
    DivisionStep(p, q, m);
    DivisionStep(q, p, m);
    if q > p {
      ProductAtLeast(q - p, m);
    } else if p > q {
      ProductAtLeast(p - q, m);
    }
  }

  lemma RotatedIsPermutation(start: nat, n: nat)
    requires n > 0
    ensures Permutation(Rotated(start, n), n)
  {
    forall i, j | 0 <= i < j < n
      ensures Rotated(start, n)[i] != Rotated(start, n)[j]
    {
      if (start + i) % n == (start + j) % n {
        SameResidue(start + i, start + j, n);
      }
    }
  }

  function Upto(n: nat): set<nat> {
    if n == 0 then {} else Upto(n - 1) + {n - 1}
  }

  lemma {:induction false} UptoMeaning(n: nat)
    ensures |Upto(n)| == n
    ensures forall i: nat :: i in Upto(n) <==> i < n
  {
    if n == 0 {
    } else {
      UptoMeaning(n - 1);
    }
  }

  /** A permutation of 0..n-1 contains every position exactly once. */
  lemma PermutationCovers(order: seq<nat>, n: nat, r: nat)
    requires Permutation(order, n) && r < n
    ensures multiset(order)[r] == 1
  {
    PermutationContains(order, n, r);
    CountOnce(order, r);
  }

  lemma {:induction false} CountOnce(s: seq<nat>, r: nat)
    requires forall i, j :: 0 <= i < j < |s| ==> s[i] != s[j]
    ensures multiset(s)[r] == if r in s then 1 else 0
  {
    if |s| == 0 {
    } else {
      var init, x := s[..|s| - 1], s[|s| - 1];
      CountOnce(init, r);
      assert s == init + [x];
      assert x !in init;
    }
  }

  ghost function Values(s: seq<nat>): set<nat> {
    set x | x in s
  }

  lemma {:induction false} DistinctSize(s: seq<nat>)
    requires forall i, j :: 0 <= i < j < |s| ==> s[i] != s[j]
    ensures |Values(s)| == |s|
  {
    if |s| == 0 {
    } else {
      var init, x := s[..|s| - 1], s[|s| - 1];
      DistinctSize(init);
      assert s == init + [x];
      assert x !in init;
      assert Values(s) == Values(init) + {x};
    }
  }

  lemma PermutationContains(order: seq<nat>, n: nat, r: nat)
    requires Permutation(order, n) && r < n
    ensures r in order
  {
    DistinctSize(order);
    UptoMeaning(n);
    if r !in order {
      assert Values(order) <= Upto(n) - {r};
      SubsetSize(Values(order), Upto(n) - {r});
    }
  }

  lemma SubsetSize<T>(a: set<T>, b: set<T>)
    requires a <= b
    ensures |a| <= |b|
  {
    assert b == a + (b - a);
  }

  lemma AnyOf<T(!new)>(s: set<T>) returns (x: T)
    requires s != {}
    ensures x in s
  {
    x :| x in s;
  }
}
