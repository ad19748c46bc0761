/** Fuzzification: each raw attribute value is mapped to one of four crisp
    scores by a fixed banding rule per criterion, and the rules are applied
    column by column to build the crisp matrix. */
module Fuzzification {
  import opened Criteria

  /** C1, MDR fee (a cost: the lower, the better). */
  function C1Score(val: int): (r: real)
    ensures IsCrispScore(r)
  {
    if val < 3000 then 1.0
    else if 3000 <= val <= 3999 then 0.75
    else if 4000 <= val <= 4499 then 0.5
    else 0.25
  }

  /** C2, monthly fee (a cost: the lower, the better). */
  function C2Score(val: int): (r: real)
    ensures IsCrispScore(r)
  {
    if val == 0 then 1.0
    else if 1 <= val <= 199999 then 0.75
    else if 200000 <= val <= 499999 then 0.5
    else 0.25
  }

  /** C3, number of payment channels (a benefit: the higher, the better). */
  function C3Score(val: int): (r: real)
    ensures IsCrispScore(r)
  {
    if val > 25 then 1.0
    else if 20 <= val <= 25 then 0.75
    else if 15 <= val <= 19 then 0.5
    else 0.25
  }

  /** C4 and C5, both on an ordinal 1-4 scale (benefits). */
  function C4C5Score(val: int): (r: real)
    ensures IsCrispScore(r)
  {
    if val == 4 then 1.0
    else if val == 3 then 0.75
    else if val == 2 then 0.5
    else 0.25
  }

  /** The crisp row of one alternative; the name is carried over. */
  function FuzzifyRow(a: Alternative): (r: CrispRow)
    ensures IsCrispRow(r) && r.name == a.name
    ensures r.c1 == C1Score(a.c1) && r.c2 == C2Score(a.c2) && r.c3 == C3Score(a.c3)
    ensures r.c4 == C4C5Score(a.c4) && r.c5 == C4C5Score(a.c5)
  {
    CrispRow(a.name, C1Score(a.c1), C2Score(a.c2), C3Score(a.c3), C4C5Score(a.c4), C4C5Score(a.c5))
  }

  /** The crisp matrix: one crisp row per alternative, in table order. */
  function CrispMatrix(table: seq<Alternative>): (m: seq<CrispRow>)
    ensures |m| == |table|
    ensures forall i :: 0 <= i < |m| ==> IsCrispRow(m[i]) && m[i].name == table[i].name
    ensures forall i :: 0 <= i < |m| ==> m[i] == FuzzifyRow(table[i])
  {
    seq(|table|, i requires 0 <= i < |table| => FuzzifyRow(table[i]))
  }

  // ---------------------------------------------------------------------
  // A reference definition of the bands: a score moves one step of 0.25
  // for every cut-off the value has reached.

  /** How many of the cut-offs `val` has reached (cut-off <= val). */
  function Reached(val: int, cutoffs: seq<int>): (n: nat)
    ensures n <= |cutoffs|
  {
    if cutoffs == [] then 0
    else (if cutoffs[0] <= val then 1 else 0) + Reached(val, cutoffs[1..])
  }

  lemma {:induction false} ReachedMonotone(a: int, b: int, cutoffs: seq<int>)
    requires a <= b
    ensures Reached(a, cutoffs) <= Reached(b, cutoffs)
  {
    if cutoffs != [] {
      ReachedMonotone(a, b, cutoffs[1..]);
    }
  }

  lemma ReachedThree(val: int, x: int, y: int, z: int)
    ensures Reached(val, [x, y, z]) ==
      (if x <= val then 1 else 0) + (if y <= val then 1 else 0) + (if z <= val then 1 else 0)
  {
    assert [x, y, z][1..] == [y, z];
    assert [y, z][1..] == [z];
    assert [z][1..] == [];
    assert Reached(val, [z]) == (if z <= val then 1 else 0) + Reached(val, []);
    assert Reached(val, [y, z]) == (if y <= val then 1 else 0) + Reached(val, [z]);
  }

  const C1Cutoffs: seq<int> := [3000, 4000, 4500]
  const C2Cutoffs: seq<int> := [1, 200000, 500000]
  const C3Cutoffs: seq<int> := [15, 20, 26]

  /** C1 loses a quarter point at each of 3000, 4000 and 4500, for every integer. */
  lemma C1ScoreByCutoffs(val: int)
    ensures C1Score(val) == 1.0 - 0.25 * Reached(val, C1Cutoffs) as real
  {
    ReachedThree(val, 3000, 4000, 4500);
  }

  /** C2 loses a quarter point at each of 1, 200000 and 500000, for every
      non-negative integer (a negative value falls into the last band). */
  lemma C2ScoreByCutoffs(val: int)
    requires val >= 0
    ensures C2Score(val) == 1.0 - 0.25 * Reached(val, C2Cutoffs) as real
  {
    ReachedThree(val, 1, 200000, 500000);
  }

  /** C3 gains a quarter point at each of 15, 20 and 26, for every integer. */
  lemma C3ScoreByCutoffs(val: int)
    ensures C3Score(val) == 0.25 + 0.25 * Reached(val, C3Cutoffs) as real
  {
    ReachedThree(val, 15, 20, 26);
  }

  /** On the 1-4 scale the C4/C5 score is a quarter of the value. */
  lemma C4C5ScoreIsQuarter(val: int)
    requires 1 <= val <= 4
    ensures C4C5Score(val) == 0.25 * val as real
  {
  }

  /** C1 never increases as the fee grows. */
  lemma C1ScoreAntitone(a: int, b: int)
    requires a <= b
    ensures C1Score(b) <= C1Score(a)
  {
    C1ScoreByCutoffs(a);
    C1ScoreByCutoffs(b);
    ReachedMonotone(a, b, C1Cutoffs);
  }

  /** C2 never increases as the fee grows, on the non-negative fees the
      editor admits. */
  lemma C2ScoreAntitone(a: int, b: int)
    requires 0 <= a <= b
    ensures C2Score(b) <= C2Score(a)
  {
    C2ScoreByCutoffs(a);
    C2ScoreByCutoffs(b);
    ReachedMonotone(a, b, C2Cutoffs);
  }

  /** C3 never decreases as the number of channels grows. */
  lemma C3ScoreMonotone(a: int, b: int)
    requires a <= b
    ensures C3Score(a) <= C3Score(b)
  {
    C3ScoreByCutoffs(a);
    C3ScoreByCutoffs(b);
    ReachedMonotone(a, b, C3Cutoffs);
  }

  /** On the 1-4 scale, C4/C5 is strictly increasing. */
  lemma C4C5ScoreStrictlyIncreasing(a: int, b: int)
    requires 1 <= a < b <= 4
    ensures C4C5Score(a) < C4C5Score(b)
  {
    C4C5ScoreIsQuarter(a);
    C4C5ScoreIsQuarter(b);
  }

  /** The band edges, each value on both sides of every cut-off. */
  lemma BandBoundaries()
    ensures C1Score(2999) == 1.0 && C1Score(3000) == 0.75 && C1Score(3999) == 0.75
    ensures C1Score(4000) == 0.5 && C1Score(4499) == 0.5 && C1Score(4500) == 0.25
    ensures C2Score(0) == 1.0 && C2Score(1) == 0.75 && C2Score(199999) == 0.75
    ensures C2Score(200000) == 0.5 && C2Score(499999) == 0.5 && C2Score(500000) == 0.25
    ensures C3Score(26) == 1.0 && C3Score(25) == 0.75 && C3Score(20) == 0.75
    ensures C3Score(19) == 0.5 && C3Score(15) == 0.5 && C3Score(14) == 0.25
    ensures C4C5Score(4) == 1.0 && C4C5Score(3) == 0.75 && C4C5Score(2) == 0.5 && C4C5Score(1) == 0.25
  {
  }
}
