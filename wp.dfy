/** Weighted Product: each alternative's vector S is the product of its crisp
    scores raised to their weights; vector V divides every S by the sum of all
    of them (or is 0 everywhere when that sum is 0); V is ranked descending.

    Dafny has no real exponentiation, so the power function is a parameter
    `pow`; only what the calculation does with its results is modelled. */
module Wp {
  import opened Criteria
  import opened Ranking

  /** Vector S of one crisp row. Crisp scores are at least 0.25, so with a
      power that is positive on positive bases, S is positive. */
  function VectorS(row: CrispRow, w: Weights, pow: (real, real) -> real): (r: real)
    ensures IsCrispRow(row) && PositiveOnPositive(pow) ==> r > 0.0
  {
    var p1, p2, p3 := pow(row.c1, w.c1), pow(row.c2, w.c2), pow(row.c3, w.c3);
    var p4, p5 := pow(row.c4, w.c4), pow(row.c5, w.c5);
    ProductPositive(p1, p2);
    ProductPositive(p1 * p2, p3);
    ProductPositive(p1 * p2 * p3, p4);
    ProductPositive(p1 * p2 * p3 * p4, p5);
    p1 * p2 * p3 * p4 * p5
  }

  /** The Vektor_S column. */
  function VectorSColumn(m: seq<CrispRow>, w: Weights, pow: (real, real) -> real): (s: seq<real>)
    ensures |s| == |m|
    ensures forall i :: 0 <= i < |m| ==> s[i] == VectorS(m[i], w, pow)
  {
    seq(|m|, i requires 0 <= i < |m| => VectorS(m[i], w, pow))
  }

  /** The sum of a column, left to right; a non-negative column has a
      non-negative sum. */
  function Sum(s: seq<real>): (r: real)
    ensures NonNegative(s) ==> r >= 0.0
  {
    if s == [] then 0.0
    else
      assert NonNegative(s) ==> NonNegative(s[1..]);
      s[0] + Sum(s[1..])
  }

  /** One entry's share of a non-zero total. */
  function Share(a: real, t: real): real
    requires t != 0.0
  {
    a / t
  }

  lemma ShareTimesTotal(a: real, t: real)
    requires t != 0.0
    ensures Share(a, t) * t == a
  {
  }

  /** Every entry divided by `t`. */
  function Divide(s: seq<real>, t: real): (v: seq<real>)
    requires t != 0.0
    ensures |v| == |s|
    ensures forall i :: 0 <= i < |s| ==> v[i] == Share(s[i], t)
  {
    seq(|s|, i requires 0 <= i < |s| => Share(s[i], t))
  }

  /** The Vektor_V column: S over the sum of S, or all zeros when the sum is 0. */
  function Normalize(s: seq<real>): (v: seq<real>)
    ensures |v| == |s|
    ensures Sum(s) == 0.0 ==> forall i :: 0 <= i < |v| ==> v[i] == 0.0
    ensures Sum(s) != 0.0 ==> forall i :: 0 <= i < |v| ==> v[i] == Share(s[i], Sum(s))
  {
    var total := Sum(s);
    if total == 0.0 then seq(|s|, _ => 0.0) else Divide(s, total)
  }

  /** The Rank_WP column. */
  function WpRanks(s: seq<real>): (r: seq<int>)
    ensures |r| == |s|
    ensures forall i :: 0 <= i < |s| ==> 1 <= r[i] <= |s|
  {
    var v := Normalize(s);
    forall i | 0 <= i < |v| ensures 1 <= Ranks(v)[i] <= |v| {
      RankBounds(v, i);
    }
    Ranks(v)
  }

  // ---------------------------------------------------------------------
  // Sums

  predicate NonNegative(s: seq<real>) {
    forall i :: 0 <= i < |s| ==> s[i] >= 0.0
  }

  lemma {:induction false} EntryAtMostSum(s: seq<real>, i: nat)
    requires NonNegative(s) && i < |s|
    ensures 0.0 <= s[i] <= Sum(s)
  {
    assert NonNegative(s[1..]);
    if i > 0 {
      EntryAtMostSum(s[1..], i - 1);
    }
  }

  /** A sum of non-negative entries is 0 exactly when every entry is. */
  lemma SumZeroIffAllZero(s: seq<real>)
    requires NonNegative(s)
    ensures Sum(s) == 0.0 <==> forall i :: 0 <= i < |s| ==> s[i] == 0.0
  {
    if Sum(s) == 0.0 {
      forall i | 0 <= i < |s| ensures s[i] == 0.0 {
        EntryAtMostSum(s, i);
      }
    } else {
      AllZeroSum(s);
    }
  }

  lemma {:induction false} AllZeroSum(s: seq<real>)
    ensures (forall i :: 0 <= i < |s| ==> s[i] == 0.0) ==> Sum(s) == 0.0
  {
    if s != [] {
      AllZeroSum(s[1..]);
    }
  }

  lemma {:induction false} SumConstant(s: seq<real>, x: real)
    requires forall i :: 0 <= i < |s| ==> s[i] == x
    ensures Sum(s) == |s| as real * x
  {
    if s != [] {
      SumConstant(s[1..], x);
    }
  }

  lemma {:induction false} SumDivide(s: seq<real>, t: real)
    requires t != 0.0
    ensures Sum(Divide(s, t)) == Share(Sum(s), t)
  {
    if s != [] {
      assert Divide(s, t)[1..] == Divide(s[1..], t);
      SumDivide(s[1..], t);
      ShareOfSum(s[0], Sum(s[1..]), t);
    }
  }

  // ---------------------------------------------------------------------
  // Normalisation

  /** With non-negative S and a non-zero sum, every V lies in [0, 1] and the
      V column sums to 1. */
  lemma NormalizeIsDistribution(s: seq<real>)
    requires NonNegative(s) && Sum(s) != 0.0
    ensures forall i :: 0 <= i < |s| ==> 0.0 <= Normalize(s)[i] <= 1.0
    ensures Sum(Normalize(s)) == 1.0
  {
    var total := Sum(s);
    var v := Normalize(s);
    assert v == Divide(s, total);
    forall i | 0 <= i < |s| ensures 0.0 <= v[i] <= 1.0 {
      EntryAtMostSum(s, i);
      ShareInUnit(s[i], total);
    }
    SumDivide(s, total);
    ShareInUnit(total, total);
  }

  lemma ShareOfSum(a: real, b: real, t: real)
    requires t != 0.0
    ensures Share(a, t) + Share(b, t) == Share(a + b, t)
  {
  }

  /** A share of a positive t by some 0 <= a <= t lies in [0, 1], and is 1 for a == t. */
  lemma ShareInUnit(a: real, t: real)
    requires 0.0 <= a <= t && t > 0.0
    ensures 0.0 <= Share(a, t) <= 1.0
    ensures a == t ==> Share(a, t) == 1.0
  {
  }

  /** Equal non-zero S values normalise to 1/N each. */
  lemma NormalizeUniform(s: seq<real>, x: real)
    requires |s| > 0 && x != 0.0
    requires forall i :: 0 <= i < |s| ==> s[i] == x
    ensures forall i :: 0 <= i < |s| ==> Normalize(s)[i] == 1.0 / |s| as real
  {
    var n := |s| as real;
    SumConstant(s, x);
    UniformShare(n, x);
    var t := Sum(s);
    assert t == n * x && t != 0.0;
    forall i | 0 <= i < |s| ensures Normalize(s)[i] == 1.0 / n {
      assert Normalize(s)[i] == Share(s[i], t);
    }
  }

  lemma UniformShare(n: real, x: real)
    requires n > 0.0 && x != 0.0
    ensures n * x != 0.0 && Share(x, n * x) == 1.0 / n
  {
  }

  /** Dividing by a positive sum keeps the order, so ranking V gives the
      ranks of S itself. */
  lemma WpRanksFollowS(s: seq<real>)
    requires Sum(s) > 0.0
    ensures WpRanks(s) == Ranks(s)
  {
    var v := Normalize(s);
    var total := Sum(s);
    forall i, j | 0 <= i < |s| && 0 <= j < |s|
      ensures (s[i] < s[j] <==> v[i] < v[j]) && (s[i] == s[j] <==> v[i] == v[j])
    {
      DivideKeepsOrder(s[i], s[j], total);
    }
    RanksOfSameOrder(s, v);
  }

  lemma DivideKeepsOrder(a: real, b: real, t: real)
    requires t > 0.0
    ensures (a < b <==> Share(a, t) < Share(b, t)) && (a == b <==> Share(a, t) == Share(b, t))
  {
    ShareTimesTotal(a, t);
    ShareTimesTotal(b, t);
  }

  /** In the zero branch every V is 0, so all alternatives tie at (N+1) div 2. */
  lemma WpRanksZeroBranch(s: seq<real>, i: nat)
    requires Sum(s) == 0.0 && i < |s|
    ensures WpRanks(s)[i] == (|s| + 1) / 2
  {
    RankAllTied(Normalize(s), i);
  }

  // ---------------------------------------------------------------------
  // Vector S with a power function that behaves like real exponentiation

  /** A power function that is positive on positive bases. */
  ghost predicate PositiveOnPositive(pow: (real, real) -> real) {
    forall x: real, y: real :: x > 0.0 ==> pow(x, y) > 0.0
  }

  lemma ProductPositive(a: real, b: real)
    ensures a > 0.0 && b > 0.0 ==> a * b > 0.0
  {
  }

  /** So, for such a power, a non-empty table has a positive sum of S and
      the zero branch is not taken. */
  lemma ZeroBranchUnreachable(m: seq<CrispRow>, w: Weights, pow: (real, real) -> real)
    requires |m| > 0 && PositiveOnPositive(pow)
    requires forall i :: 0 <= i < |m| ==> IsCrispRow(m[i])
    ensures Sum(VectorSColumn(m, w, pow)) > 0.0
  {
    var s := VectorSColumn(m, w, pow);
    assert NonNegative(s);
    EntryAtMostSum(s, 0);
  }

  /** With every weight 0 and x^0 = 1, every S is 1 and every V is 1/N. */
  lemma ZeroWeightsUniform(m: seq<CrispRow>, pow: (real, real) -> real)
    requires |m| > 0
    requires forall x: real :: x > 0.0 ==> pow(x, 0.0) == 1.0
    requires forall i :: 0 <= i < |m| ==> IsCrispRow(m[i])
    ensures forall i :: 0 <= i < |m| ==>
      Normalize(VectorSColumn(m, Weights(0.0, 0.0, 0.0, 0.0, 0.0), pow))[i] == 1.0 / |m| as real
  {
    var w := Weights(0.0, 0.0, 0.0, 0.0, 0.0);
    var s := VectorSColumn(m, w, pow);
    forall i | 0 <= i < |m| ensures s[i] == 1.0 {
      var row := m[i];
      assert pow(row.c1, 0.0) == 1.0 && pow(row.c2, 0.0) == 1.0 && pow(row.c3, 0.0) == 1.0;
      assert pow(row.c4, 0.0) == 1.0 && pow(row.c5, 0.0) == 1.0;
    }
    NormalizeUniform(s, 1.0);
  }
}
