# SAW vs WP decision calculator — scoring pipeline in Dafny

The calculator ranks payment-service providers (the "alternatives") under
two multi-criteria methods, Simple Additive Weighting (SAW) and Weighted
Product (WP). One calculation pass takes the table of raw attribute values
and the five criterion weights, and does four things:

1. **Fuzzification.** Each raw value becomes a crisp score in {0.25, 0.5, 0.75, 1.0}.
   C1 (MDR fee) and C2 (monthly fee) are costs. C3 (number of channels), C4 (speed)
   and C5 (integration) are benefits.
2. **SAW.** Each alternative's total is the weighted sum of its crisp scores.
   The totals are ranked in descending order.
3. **WP.** Each vector S (the product of the crisp scores raised to their weights)
   is divided by the sum of all S values. If that sum is 0, every V is 0.
   The V values are ranked in descending order.
4. **Comparison.** The SAW totals and WP values are joined on the alternative name.

The model is pure. Every stage is a function over sequences. The source builds
each column with one element-wise expression, so there is no loop to model.

Modules, one file each:

- `Criteria` (criteria.dfy): the data model.
- `Fuzzification` (fuzzification.dfy): the banding functions and the crisp matrix.
- `Ranking` (ranking.dfy): the rank rule.
- `Saw` (saw.dfy): the SAW scorer.
- `Wp` (wp.dfy): the WP scorer.
- `Comparison` (comparison.dfy): the join.
- `Pipeline` (pipeline.dfy): the whole pass and the default data.

**Ranks.** The code calls pandas `rank(ascending=False)` with its default tie rule
`average`, then `astype(int)`. Take a value with `g` entries strictly greater and
`k` entries equal to it, itself included. It gets the mean of positions
`g+1 .. g+k`, truncated. That is `g + (k+1) div 2`.

This is not competition ranking. Three alternatives tied at the top all get rank 2.
N identical alternatives all get `(N+1) div 2`, not 1. Competition ranking would
give all of them rank 1; the code does not, and the model follows the code.

**Weights.** The weights are used as entered and are never normalised. The
weight inputs have no lower bound. So the lemmas that need non-negative or
positive weights say so in their preconditions.

**Real power.** Dafny has no real power function. WP's `**` is therefore a
function-typed parameter `pow`. The lemmas about vector S assume only what they
need: `pow(x, y) > 0` for `x > 0`, or `pow(x, 0) == 1`. Floating-point `**` can
underflow to 0 or overflow to infinity, so these properties describe exact real
powers, not every run of the source (see "## Left out").

## Model

| member | source | states |
|---|---|---|
| `Fuzzification.C1Score` | app.py:70-74 | C1's banding is total on the integers and always returns one of the four crisp scores |
| `Fuzzification.C2Score` | app.py:76-80 | C2's banding is total and always returns one of the four crisp scores |
| `Fuzzification.C3Score` | app.py:82-86 | C3's banding is total and always returns one of the four crisp scores |
| `Fuzzification.C4C5Score` | app.py:88-92 | the C4/C5 banding is total and always returns one of the four crisp scores |
| `Fuzzification.C1ScoreByCutoffs` | app.py:70-74 | for every integer, C1 equals 1.0 minus 0.25 for each cut-off reached among 3000, 4000 and 4500 |
| `Fuzzification.C2ScoreByCutoffs` | app.py:76-80 | for every non-negative integer, C2 equals 1.0 minus 0.25 for each cut-off reached among 1, 200000 and 500000 |
| `Fuzzification.C3ScoreByCutoffs` | app.py:82-86 | for every integer, C3 equals 0.25 plus 0.25 for each cut-off reached among 15, 20 and 26 |
| `Fuzzification.C4C5ScoreIsQuarter` | app.py:88-92 | on the 1-4 scale, the C4/C5 score is a quarter of the value |
| `Fuzzification.ReachedMonotone` | app.py:70-86 | a larger value reaches at least as many cut-offs, which gives the direction of each cost/benefit band |
| `Fuzzification.C1ScoreAntitone` | app.py:70-74 | C1 never increases as the fee grows |
| `Fuzzification.C2ScoreAntitone` | app.py:76-80 | on non-negative fees, C2 never increases as the fee grows |
| `Fuzzification.C3ScoreMonotone` | app.py:82-86 | C3 never decreases as the channel count grows |
| `Fuzzification.C4C5ScoreStrictlyIncreasing` | app.py:88-92 | on 1..4, C4/C5 is strictly increasing |
| `Fuzzification.BandBoundaries` | app.py:70-92 | exact scores on both sides of every cut-off (2999/3000/3999/4000/4499/4500, 0/1/199999/200000/499999/500000, 26/25/20/19/15/14, 4/3/2/1) |
| `Fuzzification.FuzzifyRow` | app.py:98-102 | a crisp row keeps the alternative's name, holds a crisp score in every column, and takes C1, C2 and C3 from their own bands and C4 and C5 from the 1-4 band |
| `Fuzzification.CrispMatrix` | app.py:97-104 | one crisp row per alternative, in table order: row i is alternative i fuzzified, with its name, and every cell one of the four scores |
| `Ranking.AverageRank` | app.py:118 | the average rank times the tie count equals the sum of the positions g+1..g+k the tie group occupies, so it is their mean |
| `Ranking.PositionSumClosed` | app.py:118 | twice the sum of k consecutive positions from f is k(2f+k-1) |
| `Ranking.Rank` | app.py:118 | the truncated average rank equals (number strictly greater) + (number equal + 1) div 2 |
| `Ranking.RankBounds` | app.py:118 | every rank lies in 1..N |
| `Ranking.Ranks` | app.py:118 | the rank column has one rank per entry, each given by the tie rule above and lying in 1..N |
| `Ranking.RankTies` | app.py:118 | equal values get equal ranks |
| `Ranking.RankStrictlyBetter` | app.py:118 | a strictly greater value gets a strictly smaller rank |
| `Ranking.RankOrder` | app.py:118 | rank i < rank j exactly when value i > value j, and ranks are equal exactly when values are |
| `Ranking.RankAllTied` | app.py:118 | when all N values are equal, every rank is (N+1) div 2 |
| `Ranking.RankIsOneIff` | app.py:118 | rank 1 is reached exactly by a top value shared by at most two entries |
| `Ranking.ThreeTiedAtTop` | app.py:118 | three values tied at the top all get rank 2 |
| `Ranking.RanksOfSameOrder` | app.py:118 | two columns that order their entries the same way get identical ranks |
| `Saw.SawTotal` | app.py:111-117 | with non-negative weights, one alternative's total lies between 0.25 times the weight sum and the weight sum |
| `Saw.SawTotals` | app.py:111-117 | one Total_SAW per crisp row, each the weighted sum of that row's five scores |
| `Saw.SawRanks` | app.py:118 | one Rank_SAW per alternative, each in 1..N |
| `Saw.WeightedScoreBounds` | app.py:111-117 | one criterion's contribution lies between a quarter of its weight and its weight |
| `Saw.SawAllBest` | app.py:111-117 | a row of all 1.0 scores totals exactly the weight sum, which is 1 when the weights sum to 1 |
| `Saw.SawReachesTotalOnlyWhenAllBest` | app.py:111-117 | with positive weights, a total equals the weight sum exactly when every score is 1.0 |
| `Saw.SawRankOrder` | app.py:118 | SAW ranks order alternatives exactly as their totals do, ties included |
| `Wp.VectorS` | app.py:122-128 | crisp scores are positive, so with a power positive on positive bases one alternative's S is positive |
| `Wp.VectorSColumn` | app.py:122-128 | one S per crisp row, each the product of the five powers score^weight |
| `Wp.Divide` | app.py:134 | every entry of the result is its input's share of the divisor |
| `Wp.Normalize` | app.py:130-134 | if the sum of S is 0, every V is 0; otherwise every V is its S's share of that sum |
| `Wp.WpRanks` | app.py:136 | one Rank_WP per alternative, each in 1..N |
| `Wp.Sum` | app.py:130 | the sum of a column of non-negative entries is non-negative |
| `Wp.SumDivide` | app.py:134 | the shares of a column sum to the share of its sum |
| `Wp.EntryAtMostSum` | app.py:130 | in a non-negative column, each entry lies between 0 and the sum |
| `Wp.SumZeroIffAllZero` | app.py:130-131 | with non-negative S, the zero branch is taken exactly when every S is 0 |
| `Wp.NormalizeIsDistribution` | app.py:130-134 | with non-negative S and a non-zero sum, every V lies in [0,1] and the V column sums to 1 |
| `Wp.NormalizeUniform` | app.py:130-134 | N equal non-zero S values each normalise to 1/N |
| `Wp.WpRanksFollowS` | app.py:134-136 | with a positive sum, ranking V gives exactly the ranks of S |
| `Wp.WpRanksZeroBranch` | app.py:131-136 | in the zero branch all alternatives tie at rank (N+1) div 2 |
| `Wp.ZeroBranchUnreachable` | app.py:122-134 | for a power positive on positive bases and a non-empty table, the sum of S is positive, so the zero branch is not taken |
| `Wp.ZeroWeightsUniform` | app.py:122-134 | with all weights 0 and x^0 = 1, every V is 1/N |
| `Comparison.JoinOne` | app.py:165 | one SAW row joins to at most one row per WP row; each joined row keeps the SAW name and value and carries the value of a WP row with that name |
| `Comparison.Merge` | app.py:165 | every row of the inner join pairs a SAW row and a WP row that both carry the row's name, with their two values |
| `Comparison.JoinOneMissing` | app.py:165 | a name absent from the WP side produces no comparison row (inner join) |
| `Comparison.JoinOneUnique` | app.py:165 | a name present exactly once on the WP side produces exactly one row, with that side's value |
| `Comparison.MergeMatched` | app.py:165 | with distinct WP names and every SAW name found there, the join has one row per SAW row, in SAW order, with both values |
| `Comparison.MergeAligned` | app.py:165-167 | when both sides list the same distinct names in the same order, row i joins row i with row i |
| `Pipeline.Keyed` | app.py:165 | the (name, value) pairs of a result column, one per crisp row |
| `Pipeline.Calculate` | app.py:97-136 | every result column has one entry per alternative, every crisp cell is a crisp score, and every rank lies in 1..N |
| `Pipeline.CalculateComparison` | app.py:165-167 | with distinct names, the chart has one row per alternative, in table order, carrying its Total_SAW and Vektor_V |
| `Pipeline.CalculateSawBounds` | app.py:111-117 | with non-negative weights, every Total_SAW lies between 0.25 times the weight sum and the weight sum |
| `Pipeline.CalculateWp` | app.py:122-136 | for a power positive on positive bases and a non-empty table, the sum of S is positive, V is in [0,1] and sums to 1, and Rank_WP equals the ranks of S |
| `Pipeline.CalculateValidTable` | app.py:97-102 | on a table within the editor's bounds (app.py:51-55), C2's crisp score follows its cut-off count and every C4/C5 crisp score is a quarter of the raw value |
| `Pipeline.IdenticalColumns` | app.py:97-128 | alternatives with the same values get the same Total_SAW and the same S |
| `Pipeline.CalculateAllIdentical` | app.py:97-136 | for a power positive on positive bases, when all alternatives have the same values, every V is 1/N and both rank columns are (N+1) div 2 everywhere |
| `Pipeline.DefaultCrispMatrix` | app.py:14-21 | the default table fuzzifies to A1=[0.5,1,0.75,0.75,1], A2=[0.25,1,1,0.75,1], A3=[0.75,0.5,0.75,0.5,0.75], A4=[0.5,0.25,0.5,0.5,0.5], A5=[1,1,0.25,1,0.75] |
| `Pipeline.DefaultSawTotals` | app.py:27-31 | with the default weights 0.25/0.15/0.20/0.20/0.20, the SAW totals are 0.775, 0.7625, 0.6625, 0.4625, 0.8 |
| `Pipeline.DefaultSawRanks` | app.py:118 | those totals rank 2, 3, 4, 5, 1 |
| `Pipeline.DefaultSawResults` | app.py:14-31 | the whole pass on the default data gives that crisp matrix, those totals and those ranks, whatever the power function |
| `Ranking.RankOfDistinct` | app.py:118 | in a column of distinct values, a value with g greater values has rank g + 1 |

## Left out

- The Streamlit interface is left out, because it is I/O and widget plumbing: page setup, titles, sidebar inputs, the data editor, the form, the submit button and `st.rerun` (app.py:5-66).
- Session state and reset-to-default are left out (app.py:12-22, 36-38, 64). The default table appears only as the constants `DefaultTable` and `DefaultWeights`.
- The empty-cell check (app.py:61) and the editor's min/max bounds are not behaviour of the pass. The bounds appear as the predicate `ValidTable`, which `Pipeline.CalculateValidTable` requires, and as the preconditions of the C2 and C4/C5 lemmas.
- Computing S with floating-point `**` (app.py:122-128) is not modelled. `pow` is a parameter, and no lemma relies on any property of `pow` beyond positivity or `x^0 = 1`.
- IEEE-754 rounding is not modelled. Sums, quotients and the values pandas ranks are exact `real`s. A tie that floating point would break, or a float-only tie, is outside the model.
- Display sorting, `highlight_max`, the column renaming for the chart and the bar chart are left out, because they are presentation only (app.py:139-170).
- The catch-all `except` that turns any fault into a message is left out (app.py:172-173).
- Non-integer raw values are outside the model. All raw values are `int`. (In the source, a value such as 3999.5 falls through every C1 band to 0.25.)
- Duplicate alternative names are outside the proved properties. `Merge` does produce one row per matching pair for them, as the join does, but the lemmas assume distinct names.
- `Fuzzification.C2ScoreAntitone`: stated only for non-negative fees. A negative fee falls into C2's last band (0.25), so C2 is not antitone across 0. The editor forbids negative fees.
- `Saw.SawTotal`: its bounds are stated only for non-negative weights. The weight inputs accept negative numbers, and then a total can fall outside these bounds.
- `Wp.ZeroBranchUnreachable`, `Pipeline.CalculateWp` and `Pipeline.CalculateAllIdentical`: these hold for an exact real power that is positive on positive bases. In the source, `**` is floating point and the weights are unbounded (app.py:27-31). A large weight can make `0.5 ** w` underflow to 0.0, so every S is 0 and the zero branch at app.py:131-132 is taken. A large negative weight can make `0.25 ** w` overflow to infinity, so V becomes NaN and `astype(int)` at app.py:136 raises into the `except` at app.py:172. `Wp.Normalize` and `Wp.WpRanksZeroBranch` describe the zero branch itself for any `pow`.
