/** Simple Additive Weighting: each alternative's total is the sum of its
    five crisp scores, each multiplied by its criterion's weight as entered
    (the weights are not normalised), and the totals are ranked descending. */
module Saw {
  import opened Criteria
  import opened Ranking

  /** One criterion's contribution: its crisp score times its weight. */
  function Weighted(c: real, wc: real): real {
    c * wc
  }

  /** The SAW total of one crisp row. With non-negative weights it lies
      between a quarter of the weight sum and the weight sum. */
  function SawTotal(row: CrispRow, w: Weights): (t: real)
    ensures IsCrispRow(row) && w.NonNegative() ==> 0.25 * w.Total() <= t <= w.Total()
  {
    WeightedScoreBounds(row.c1, w.c1);
    WeightedScoreBounds(row.c2, w.c2);
    WeightedScoreBounds(row.c3, w.c3);
    WeightedScoreBounds(row.c4, w.c4);
    WeightedScoreBounds(row.c5, w.c5);
    Weighted(row.c1, w.c1) + Weighted(row.c2, w.c2) + Weighted(row.c3, w.c3)
      + Weighted(row.c4, w.c4) + Weighted(row.c5, w.c5)
  }

  /** The Total_SAW column: one total per row of the crisp matrix. */
  function SawTotals(m: seq<CrispRow>, w: Weights): (t: seq<real>)
    ensures |t| == |m|
    ensures forall i :: 0 <= i < |m| ==> t[i] == SawTotal(m[i], w)
  {
    seq(|m|, i requires 0 <= i < |m| => SawTotal(m[i], w))
  }

  /** The Rank_SAW column. */
  function SawRanks(m: seq<CrispRow>, w: Weights): (r: seq<int>)
    ensures |r| == |m|
    ensures forall i :: 0 <= i < |m| ==> 1 <= r[i] <= |m|
  {
    Ranks(SawTotals(m, w))
  }

  /** A weighted crisp score lies between a quarter of its (non-negative)
      weight and the weight. */
  lemma WeightedScoreBounds(c: real, wc: real)
    ensures IsCrispScore(c) && wc >= 0.0 ==> 0.25 * wc <= Weighted(c, wc) <= wc
  {
  }

  predicate AllBest(row: CrispRow) {
    row.c1 == 1.0 && row.c2 == 1.0 && row.c3 == 1.0 && row.c4 == 1.0 && row.c5 == 1.0
  }

  /** A row scoring 1.0 everywhere totals exactly the weight sum, whatever
      the weights; so with weights summing to 1 it totals 1. */
  lemma SawAllBest(row: CrispRow, w: Weights)
    requires AllBest(row)
    ensures SawTotal(row, w) == w.Total()
  {
  }

  /** With strictly positive weights, the total reaches the weight sum only
      when every crisp score is 1.0. */
  lemma SawReachesTotalOnlyWhenAllBest(row: CrispRow, w: Weights)
    requires IsCrispRow(row) && w.Positive()
    ensures SawTotal(row, w) == w.Total() <==> AllBest(row)
  {
    WeightedScoreBounds(row.c1, w.c1);
    WeightedScoreBounds(row.c2, w.c2);
    WeightedScoreBounds(row.c3, w.c3);
    WeightedScoreBounds(row.c4, w.c4);
    WeightedScoreBounds(row.c5, w.c5);
    if !AllBest(row) {
      StrictBelowBest(row.c1, w.c1);
      StrictBelowBest(row.c2, w.c2);
      StrictBelowBest(row.c3, w.c3);
      StrictBelowBest(row.c4, w.c4);
      StrictBelowBest(row.c5, w.c5);
    }
  }

  lemma StrictBelowBest(c: real, wc: real)
    requires IsCrispScore(c) && wc > 0.0
    ensures c != 1.0 ==> Weighted(c, wc) < wc
  {
  }

  /** The SAW ranks order the alternatives exactly as their totals do. */
  lemma SawRankOrder(m: seq<CrispRow>, w: Weights, i: nat, j: nat)
    requires i < |m| && j < |m|
    ensures SawRanks(m, w)[i] < SawRanks(m, w)[j] <==> SawTotal(m[i], w) > SawTotal(m[j], w)
    ensures SawRanks(m, w)[i] == SawRanks(m, w)[j] <==> SawTotal(m[i], w) == SawTotal(m[j], w)
  {
    RankOrder(SawTotals(m, w), i, j);
  }
}
