/** Ranking of a column in descending order, as pandas' `rank(ascending=False)`
    computes it with its default tie rule `method='average'`, followed by the
    conversion `astype(int)`, which truncates toward zero.

    Sorted descending, the tie group of a value v occupies the positions
    g+1 .. g+k, where g counts the values strictly greater than v and k the
    values equal to v. Each member of the group gets the mean of those
    positions, g + (k+1)/2, and truncation leaves g + (k+1) div 2. */
module Ranking {

  /** Number of entries of `xs` strictly greater than `v`. */
  function CountGreater(xs: seq<real>, v: real): (n: nat)
    ensures n <= |xs|
  {
    if xs == [] then 0
    else (if xs[0] > v then 1 else 0) + CountGreater(xs[1..], v)
  }

  /** Number of entries of `xs` equal to `v`. */
  function CountEqual(xs: seq<real>, v: real): (n: nat)
    ensures n <= |xs|
  {
    if xs == [] then 0
    else (if xs[0] == v then 1 else 0) + CountEqual(xs[1..], v)
  }

  /** The sum of the `count` consecutive positions first, first + 1, ... */
  function PositionSum(first: int, count: nat): int
    decreases count
  {
    if count == 0 then 0 else first + PositionSum(first + 1, count - 1)
  }

  lemma {:induction false} PositionSumClosed(first: int, count: nat)
    ensures 2 * PositionSum(first, count) == count * (2 * first + count - 1)
    decreases count
  {
    if count > 0 {
      PositionSumClosed(first + 1, count - 1);
    }
  }

  /** The 'average' rank of entry i: the mean of the positions its tie group
      occupies in descending order. */
  function AverageRank(xs: seq<real>, i: nat): (r: real)
    requires i < |xs|
    ensures var g, k := CountGreater(xs, xs[i]), CountEqual(xs, xs[i]);
      r * k as real == PositionSum(g + 1, k) as real
  {
    var g, k := CountGreater(xs, xs[i]), CountEqual(xs, xs[i]);
    MidpointIsMean(g, k);
    Midpoint(g, k)
  }

  /** The midpoint of the positions g+1 .. g+k. */
  function Midpoint(g: int, k: nat): real {
    g as real + (k as real + 1.0) / 2.0
  }

  /** The midpoint of the positions g+1 .. g+k times k is their sum. */
  lemma MidpointIsMean(g: int, k: nat)
    ensures Midpoint(g, k) * k as real == PositionSum(g + 1, k) as real
  {
    var p := PositionSum(g + 1, k);
    PositionSumClosed(g + 1, k);
    var m := 2 * g + k + 1;
    assert 2 * p == k * m;
    assert (2 * p) as real == k as real * m as real;
    assert Midpoint(g, k) == m as real / 2.0;
  }

  lemma FloorOfHalf(g: int, m: int)
    ensures (g as real + m as real / 2.0).Floor == g + m / 2
  {
    var q := m / 2;
    if m == 2 * q {
      assert m as real / 2.0 == q as real;
    } else {
      assert m == 2 * q + 1;
      assert m as real / 2.0 == q as real + 0.5;
    }
  }

  /** The integer rank of entry i: the truncated average rank. */
  function Rank(xs: seq<real>, i: nat): (r: int)
    requires i < |xs|
    ensures r == CountGreater(xs, xs[i]) + (CountEqual(xs, xs[i]) + 1) / 2
  {
    var g, k := CountGreater(xs, xs[i]), CountEqual(xs, xs[i]);
    FloorOfHalf(g, k + 1);
    assert (k + 1) as real == k as real + 1.0;
    AverageRank(xs, i).Floor
  }

  /** The rank column of `xs`: every entry ranked, each between 1 and N. */
  function Ranks(xs: seq<real>): (r: seq<int>)
    ensures |r| == |xs|
    ensures forall i :: 0 <= i < |xs| ==> r[i] == Rank(xs, i)
    ensures forall i :: 0 <= i < |xs| ==> 1 <= r[i] <= |xs|
  {
    forall i | 0 <= i < |xs| ensures 1 <= Rank(xs, i) <= |xs| {
      RankBounds(xs, i);
    }
    seq(|xs|, i requires 0 <= i < |xs| => Rank(xs, i))
  }

  // ---------------------------------------------------------------------
  // Counting facts

  lemma {:induction false} CountEqualMember(xs: seq<real>, i: nat)
    requires i < |xs|
    ensures CountEqual(xs, xs[i]) >= 1
  {
    if i > 0 {
      CountEqualMember(xs[1..], i - 1);
    }
  }

  lemma {:induction false} CountGreaterEqualBound(xs: seq<real>, v: real)
    ensures CountGreater(xs, v) + CountEqual(xs, v) <= |xs|
  {
    if xs != [] {
      CountGreaterEqualBound(xs[1..], v);
    }
  }

  /** Everything at or above a is strictly above a smaller b. */
  lemma {:induction false} CountGreaterBelow(xs: seq<real>, a: real, b: real)
    requires b < a
    ensures CountGreater(xs, a) + CountEqual(xs, a) <= CountGreater(xs, b)
  {
    if xs != [] {
      CountGreaterBelow(xs[1..], a, b);
    }
  }

  lemma {:induction false} CountAllEqual(xs: seq<real>, v: real)
    requires forall j :: 0 <= j < |xs| ==> xs[j] == v
    ensures CountGreater(xs, v) == 0 && CountEqual(xs, v) == |xs|
  {
    if xs != [] {
      CountAllEqual(xs[1..], v);
    }
  }

  // ---------------------------------------------------------------------
  // Properties of the rank

  /** Every rank lies between 1 and the number of entries. */
  lemma RankBounds(xs: seq<real>, i: nat)
    requires i < |xs|
    ensures 1 <= Rank(xs, i) <= |xs|
  {
    CountEqualMember(xs, i);
    CountGreaterEqualBound(xs, xs[i]);
  }

  /** Equal values get equal ranks. */
  lemma RankTies(xs: seq<real>, i: nat, j: nat)
    requires i < |xs| && j < |xs| && xs[i] == xs[j]
    ensures Rank(xs, i) == Rank(xs, j)
  {
  }

  /** A strictly greater value gets a strictly smaller (better) rank. */
  lemma RankStrictlyBetter(xs: seq<real>, i: nat, j: nat)
    requires i < |xs| && j < |xs| && xs[i] > xs[j]
    ensures Rank(xs, i) < Rank(xs, j)
  {
    CountGreaterBelow(xs, xs[i], xs[j]);
    CountEqualMember(xs, j);
  }

  /** The ranks order the entries exactly as their values do, descending. */
  lemma RankOrder(xs: seq<real>, i: nat, j: nat)
    requires i < |xs| && j < |xs|
    ensures Rank(xs, i) < Rank(xs, j) <==> xs[i] > xs[j]
    ensures Rank(xs, i) == Rank(xs, j) <==> xs[i] == xs[j]
  {
    if xs[i] > xs[j] {
      RankStrictlyBetter(xs, i, j);
    } else if xs[j] > xs[i] {
      RankStrictlyBetter(xs, j, i);
    }
  }

  /** When every entry is the same, all share the rank (N+1) div 2 (not 1). */
  lemma RankAllTied(xs: seq<real>, i: nat)
    requires i < |xs|
    requires forall j :: 0 <= j < |xs| ==> xs[j] == xs[0]
    ensures Rank(xs, i) == (|xs| + 1) / 2
  {
    CountAllEqual(xs, xs[0]);
  }

  /** Rank 1 goes to a top value only while at most two entries share it:
      three tied at the top all get 1 + 1 = 2, truncated from (1+2+3)/3. */
  lemma RankIsOneIff(xs: seq<real>, i: nat)
    requires i < |xs|
    ensures Rank(xs, i) == 1 <==> CountGreater(xs, xs[i]) == 0 && CountEqual(xs, xs[i]) <= 2
  {
    CountEqualMember(xs, i);
  }

  lemma ThreeTiedAtTop()
    ensures Ranks([0.8, 0.8, 0.8]) == [2, 2, 2]
  {
    var xs := [0.8, 0.8, 0.8];
    RankAllTied(xs, 0);
    RankAllTied(xs, 1);
    RankAllTied(xs, 2);
  }

  /** In a column of distinct values, a value with `above` strictly greater
      values has rank above + 1. */
  lemma RankOfDistinct(xs: seq<real>, i: nat, above: nat)
    requires i < |xs|
    requires forall j, k :: 0 <= j < k < |xs| ==> xs[j] != xs[k]
    requires CountGreater(xs, xs[i]) == above
    ensures Rank(xs, i) == above + 1
  {
    CountEqualDistinct(xs, i);
  }

  lemma {:induction false} CountEqualDistinct(xs: seq<real>, i: nat)
    requires i < |xs|
    requires forall j, k :: 0 <= j < k < |xs| ==> xs[j] != xs[k]
    ensures CountEqual(xs, xs[i]) == 1
  {
    if i == 0 {
      CountEqualAbsent(xs[1..], xs[0]);
    } else {
      CountEqualDistinct(xs[1..], i - 1);
    }
  }

  lemma {:induction false} CountEqualAbsent(xs: seq<real>, v: real)
    requires forall j :: 0 <= j < |xs| ==> xs[j] != v
    ensures CountEqual(xs, v) == 0
  {
    if xs != [] {
      CountEqualAbsent(xs[1..], v);
    }
  }

  // ---------------------------------------------------------------------
  // Ranks depend only on the order of the values

  /** `xs` and `ys` order their entries the same way. */
  predicate SameOrder(xs: seq<real>, ys: seq<real>) {
    && |xs| == |ys|
    && forall i, j :: 0 <= i < |xs| && 0 <= j < |xs| ==>
         (xs[i] < xs[j] <==> ys[i] < ys[j]) && (xs[i] == xs[j] <==> ys[i] == ys[j])
  }

  lemma {:induction false} CountsTransfer(xs: seq<real>, v: real, ys: seq<real>, w: real)
    requires |xs| == |ys|
    requires forall k :: 0 <= k < |xs| ==> (xs[k] > v <==> ys[k] > w) && (xs[k] == v <==> ys[k] == w)
    ensures CountGreater(xs, v) == CountGreater(ys, w)
    ensures CountEqual(xs, v) == CountEqual(ys, w)
  {
    if xs != [] {
      assert xs[0] > v <==> ys[0] > w;
      assert xs[0] == v <==> ys[0] == w;
      CountsTransfer(xs[1..], v, ys[1..], w);
    }
  }

  /** Two columns that order their entries the same way get the same ranks. */
  lemma RanksOfSameOrder(xs: seq<real>, ys: seq<real>)
    requires SameOrder(xs, ys)
    ensures Ranks(xs) == Ranks(ys)
  {
    forall i | 0 <= i < |xs|
      ensures Rank(xs, i) == Rank(ys, i)
    {
      forall k | 0 <= k < |xs|
        ensures (xs[k] > xs[i] <==> ys[k] > ys[i]) && (xs[k] == xs[i] <==> ys[k] == ys[i])
      {
      }
      CountsTransfer(xs, xs[i], ys, ys[i]);
    }
  }
}
