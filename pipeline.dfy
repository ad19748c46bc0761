/** One calculation pass: fuzzify the table, score it under SAW and WP, rank
    both, and join the two headline columns for the chart. */
module Pipeline {
  import opened Criteria
  import opened Fuzzification
  import opened Ranking
  import opened Saw
  import opened Wp
  import opened Comparison

  /** Everything one pass produces. */
  datatype Results = Results(
    crisp: seq<CrispRow>,
    sawTotals: seq<real>,
    sawRanks: seq<int>,
    vectorS: seq<real>,
    vectorV: seq<real>,
    wpRanks: seq<int>,
    chart: seq<ChartRow>)

  /** The (name, value) pairs of one result column. */
  function Keyed(m: seq<CrispRow>, values: seq<real>): (rows: seq<(string, real)>)
    requires |values| == |m|
    ensures |rows| == |m|
    ensures forall i :: 0 <= i < |m| ==> rows[i] == (m[i].name, values[i])
  {
    seq(|m|, i requires 0 <= i < |m| => (m[i].name, values[i]))
  }

  /** The calculation pass; `pow` is real exponentiation. Every column has
      one entry per alternative, every crisp score is one of the four values,
      and every rank lies in 1..N. */
  function Calculate(table: seq<Alternative>, w: Weights, pow: (real, real) -> real): (r: Results)
    ensures && |r.crisp| == |r.sawTotals| == |r.sawRanks| == |table|
            && |r.vectorS| == |r.vectorV| == |r.wpRanks| == |table|
    ensures forall i :: 0 <= i < |table| ==> IsCrispRow(r.crisp[i]) && r.crisp[i].name == table[i].name
    ensures forall i :: 0 <= i < |table| ==> 1 <= r.sawRanks[i] <= |table| && 1 <= r.wpRanks[i] <= |table|
  {
    var crisp := CrispMatrix(table);
    var totals := SawTotals(crisp, w);
    var s := VectorSColumn(crisp, w, pow);
    var v := Normalize(s);
    Results(crisp, totals, SawRanks(crisp, w), s, v, WpRanks(s),
            Merge(Keyed(crisp, totals), Keyed(crisp, v)))
  }

  /** With distinct names, the comparison has exactly one row per
      alternative, in table order, with its Total_SAW and its Vektor_V. */
  lemma CalculateComparison(table: seq<Alternative>, w: Weights, pow: (real, real) -> real)
    requires DistinctNames(table)
    ensures var r := Calculate(table, w, pow);
      && |r.chart| == |table|
      && forall i :: 0 <= i < |table| ==>
           r.chart[i] == ChartRow(table[i].name, r.sawTotals[i], r.vectorV[i])
  {
    var crisp := CrispMatrix(table);
    var totals := SawTotals(crisp, w);
    var v := Normalize(VectorSColumn(crisp, w, pow));
    MergeAligned(Keyed(crisp, totals), Keyed(crisp, v));
  }

  /** With non-negative weights every SAW total lies between a quarter of
      the weight sum and the weight sum. */
  lemma CalculateSawBounds(table: seq<Alternative>, w: Weights, pow: (real, real) -> real)
    requires w.NonNegative()
    ensures var r := Calculate(table, w, pow);
      forall i :: 0 <= i < |table| ==> 0.25 * w.Total() <= r.sawTotals[i] <= w.Total()
  {
  }

  /** For a non-empty table and a power that is positive on positive bases,
      V is a proper distribution (each in [0, 1], summing to 1), and the WP
      ranks are the ranks of S itself. */
  lemma CalculateWp(table: seq<Alternative>, w: Weights, pow: (real, real) -> real)
    requires |table| > 0 && PositiveOnPositive(pow)
    ensures var r := Calculate(table, w, pow);
      && Sum(r.vectorS) > 0.0
      && (forall i :: 0 <= i < |table| ==> 0.0 <= r.vectorV[i] <= 1.0)
      && Sum(r.vectorV) == 1.0
      && r.wpRanks == Ranks(r.vectorS)
  {
    var crisp := CrispMatrix(table);
    var s := VectorSColumn(crisp, w, pow);
    ZeroBranchUnreachable(crisp, w, pow);
    assert NonNegative(s);
    NormalizeIsDistribution(s);
    WpRanksFollowS(s);
  }

  /** On a table within the editor's bounds (fees and channel counts at
      least 0, C4 and C5 on 1..4), C2's crisp score follows its cut-off
      count and every C4/C5 crisp score is a quarter of the raw value. */
  lemma CalculateValidTable(table: seq<Alternative>, w: Weights, pow: (real, real) -> real)
    requires ValidTable(table)
    ensures var r := Calculate(table, w, pow);
      forall i :: 0 <= i < |table| ==>
        && r.crisp[i].c2 == 1.0 - 0.25 * Reached(table[i].c2, C2Cutoffs) as real
        && r.crisp[i].c4 == 0.25 * table[i].c4 as real
        && r.crisp[i].c5 == 0.25 * table[i].c5 as real
  {
    forall i | 0 <= i < |table|
      ensures C2Score(table[i].c2) == 1.0 - 0.25 * Reached(table[i].c2, C2Cutoffs) as real
      ensures C4C5Score(table[i].c4) == 0.25 * table[i].c4 as real
      ensures C4C5Score(table[i].c5) == 0.25 * table[i].c5 as real
    {
      C2ScoreByCutoffs(table[i].c2);
      C4C5ScoreIsQuarter(table[i].c4);
      C4C5ScoreIsQuarter(table[i].c5);
    }
  }

  /** Alternatives with identical attribute values (names aside). */
  predicate SameValues(a: Alternative, b: Alternative) {
    a.c1 == b.c1 && a.c2 == b.c2 && a.c3 == b.c3 && a.c4 == b.c4 && a.c5 == b.c5
  }

  /** When all alternatives carry the same values, every V is 1/N and all
      alternatives share the rank (N+1) div 2 under both methods. */
  lemma CalculateAllIdentical(table: seq<Alternative>, w: Weights, pow: (real, real) -> real)
    requires |table| > 0 && PositiveOnPositive(pow)
    requires forall i :: 0 <= i < |table| ==> SameValues(table[i], table[0])
    ensures var r := Calculate(table, w, pow);
      forall i :: 0 <= i < |table| ==>
        && r.vectorV[i] == 1.0 / |table| as real
        && r.sawRanks[i] == (|table| + 1) / 2
        && r.wpRanks[i] == (|table| + 1) / 2
  {
    var crisp := CrispMatrix(table);
    var totals := SawTotals(crisp, w);
    var s := VectorSColumn(crisp, w, pow);
    IdenticalColumns(table, w, pow);
    NormalizeUniform(s, s[0]);
    ZeroBranchUnreachable(crisp, w, pow);
    WpRanksFollowS(s);
    forall i | 0 <= i < |table|
      ensures Ranks(totals)[i] == (|table| + 1) / 2 && Ranks(s)[i] == (|table| + 1) / 2
    {
      RankAllTied(totals, i);
      RankAllTied(s, i);
    }
  }

  /** Identical values give identical SAW totals and identical S values. */
  lemma IdenticalColumns(table: seq<Alternative>, w: Weights, pow: (real, real) -> real)
    requires |table| > 0
    requires forall i :: 0 <= i < |table| ==> SameValues(table[i], table[0])
    ensures var crisp := CrispMatrix(table);
      forall i :: 0 <= i < |table| ==>
        && SawTotals(crisp, w)[i] == SawTotals(crisp, w)[0]
        && VectorSColumn(crisp, w, pow)[i] == VectorSColumn(crisp, w, pow)[0]
  {
    var crisp := CrispMatrix(table);
    forall i | 0 <= i < |table|
      ensures SawTotal(crisp[i], w) == SawTotal(crisp[0], w)
      ensures VectorS(crisp[i], w, pow) == VectorS(crisp[0], w, pow)
    {
      var a, b := crisp[i], crisp[0];
      assert a == FuzzifyRow(table[i]) && b == FuzzifyRow(table[0]);
      assert a.c1 == b.c1 && a.c2 == b.c2 && a.c3 == b.c3 && a.c4 == b.c4 && a.c5 == b.c5;
    }
  }

  // ---------------------------------------------------------------------
  // The default data set and weights

  const DefaultTable: seq<Alternative> := [
    Alternative("A1 (Midtrans)", 4000, 0, 24, 3, 4),
    Alternative("A2 (Xendit)", 4500, 0, 28, 3, 4),
    Alternative("A3 (Doku)", 3500, 250000, 20, 2, 3),
    Alternative("A4 (Faspay)", 4000, 500000, 18, 2, 2),
    Alternative("A5 (Tripay)", 2500, 0, 12, 4, 3)
  ]

  const DefaultWeights: Weights := Weights(0.25, 0.15, 0.20, 0.20, 0.20)

  /** On the default data and weights: the crisp matrix, the SAW totals and
      the SAW ranks (A5 first, then A1, A2, A3, A4). */
  lemma DefaultSawResults(pow: (real, real) -> real)
    ensures var r := Calculate(DefaultTable, DefaultWeights, pow);
      && r.crisp == [
           CrispRow("A1 (Midtrans)", 0.5, 1.0, 0.75, 0.75, 1.0),
           CrispRow("A2 (Xendit)", 0.25, 1.0, 1.0, 0.75, 1.0),
           CrispRow("A3 (Doku)", 0.75, 0.5, 0.75, 0.5, 0.75),
           CrispRow("A4 (Faspay)", 0.5, 0.25, 0.5, 0.5, 0.5),
           CrispRow("A5 (Tripay)", 1.0, 1.0, 0.25, 1.0, 0.75)]
      && r.sawTotals == [0.775, 0.7625, 0.6625, 0.4625, 0.8]
      && r.sawRanks == [2, 3, 4, 5, 1]
  {
    DefaultCrispMatrix();
    DefaultSawTotals();
    DefaultSawRanks();
  }

  const DefaultCrispRows: seq<CrispRow> := [
    CrispRow("A1 (Midtrans)", 0.5, 1.0, 0.75, 0.75, 1.0),
    CrispRow("A2 (Xendit)", 0.25, 1.0, 1.0, 0.75, 1.0),
    CrispRow("A3 (Doku)", 0.75, 0.5, 0.75, 0.5, 0.75),
    CrispRow("A4 (Faspay)", 0.5, 0.25, 0.5, 0.5, 0.5),
    CrispRow("A5 (Tripay)", 1.0, 1.0, 0.25, 1.0, 0.75)]

  const DefaultTotals: seq<real> := [0.775, 0.7625, 0.6625, 0.4625, 0.8]

  lemma DefaultCrispMatrix()
    ensures CrispMatrix(DefaultTable) == DefaultCrispRows
  {
    var m := CrispMatrix(DefaultTable);
    assert m[0] == DefaultCrispRows[0];
    assert m[1] == DefaultCrispRows[1];
    assert m[2] == DefaultCrispRows[2];
    assert m[3] == DefaultCrispRows[3];
    assert m[4] == DefaultCrispRows[4];
  }

  lemma DefaultSawTotals()
    ensures SawTotals(DefaultCrispRows, DefaultWeights) == DefaultTotals
  {
    var t := SawTotals(DefaultCrispRows, DefaultWeights);
    assert t[0] == DefaultTotals[0];
    assert t[1] == DefaultTotals[1];
    assert t[2] == DefaultTotals[2];
    assert t[3] == DefaultTotals[3];
    assert t[4] == DefaultTotals[4];
  }

  lemma DefaultSawRanks()
    ensures Ranks(DefaultTotals) == [2, 3, 4, 5, 1]
  {
    var xs := DefaultTotals;
    CountGreaterFive(0.775, 0.7625, 0.6625, 0.4625, 0.8, 0.775);
    CountGreaterFive(0.775, 0.7625, 0.6625, 0.4625, 0.8, 0.7625);
    CountGreaterFive(0.775, 0.7625, 0.6625, 0.4625, 0.8, 0.6625);
    CountGreaterFive(0.775, 0.7625, 0.6625, 0.4625, 0.8, 0.4625);
    CountGreaterFive(0.775, 0.7625, 0.6625, 0.4625, 0.8, 0.8);
    RankOfDistinct(xs, 0, 1);
    RankOfDistinct(xs, 1, 2);
    RankOfDistinct(xs, 2, 3);
    RankOfDistinct(xs, 3, 4);
    RankOfDistinct(xs, 4, 0);
  }

  lemma CountGreaterFive(a: real, b: real, c: real, d: real, e: real, v: real)
    ensures CountGreater([a, b, c, d, e], v) ==
      (if a > v then 1 else 0) + (if b > v then 1 else 0) + (if c > v then 1 else 0)
        + (if d > v then 1 else 0) + (if e > v then 1 else 0)
  {
    assert [a, b, c, d, e][1..] == [b, c, d, e];
    assert [b, c, d, e][1..] == [c, d, e];
    assert [c, d, e][1..] == [d, e];
    assert [d, e][1..] == [e];
    assert [e][1..] == [];
    assert CountGreater([e], v) == (if e > v then 1 else 0) + CountGreater([], v);
    assert CountGreater([d, e], v) == (if d > v then 1 else 0) + CountGreater([e], v);
    assert CountGreater([c, d, e], v) == (if c > v then 1 else 0) + CountGreater([d, e], v);
    assert CountGreater([b, c, d, e], v) == (if b > v then 1 else 0) + CountGreater([c, d, e], v);
  }
}
