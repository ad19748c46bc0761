/** The comparison table behind the bar chart: the SAW totals and the WP
    V values joined on the alternative's name, as an inner merge does it.
    For every row on the left, in order, one joined row per row on the right
    with the same name, in the right's order; a name missing on either side
    produces nothing. */
module Comparison {

  /** One row of the comparison: a name, its SAW total and its WP value. */
  datatype ChartRow = ChartRow(name: string, saw: real, wp: real)

  /** The joined rows for one left row (name, sawValue): one per right row
      carrying that name, with that right row's value. */
  function JoinOne(name: string, sawValue: real, right: seq<(string, real)>): (rows: seq<ChartRow>)
    ensures |rows| <= |right|
    ensures forall k :: 0 <= k < |rows| ==>
      rows[k].name == name && rows[k].saw == sawValue && (name, rows[k].wp) in right
  {
    if right == [] then []
    else
      var head := if right[0].0 == name then [ChartRow(name, sawValue, right[0].1)] else [];
      var rest := JoinOne(name, sawValue, right[1..]);
      forall k | 0 <= k < |head + rest|
        ensures (name, (head + rest)[k].wp) in right
      {
        if k < |head| {
          assert right[0] == (name, (head + rest)[k].wp);
        } else {
          assert (head + rest)[k] == rest[k - |head|];
          assert right == [right[0]] + right[1..];
        }
      }
      head + rest
  }

  /** The inner merge of `left` (name, Total_SAW) with `right` (name, Vektor_V):
      every row pairs a left row and a right row that carry its name. */
  function Merge(left: seq<(string, real)>, right: seq<(string, real)>): (rows: seq<ChartRow>)
    ensures forall k :: 0 <= k < |rows| ==>
      (rows[k].name, rows[k].saw) in left && (rows[k].name, rows[k].wp) in right
  {
    if left == [] then []
    else
      var first := JoinOne(left[0].0, left[0].1, right);
      var rest := Merge(left[1..], right);
      forall k | 0 <= k < |first + rest|
        ensures ((first + rest)[k].name, (first + rest)[k].saw) in left
      {
        if k < |first| {
          assert left[0] == ((first + rest)[k].name, (first + rest)[k].saw);
        } else {
          assert (first + rest)[k] == rest[k - |first|];
          assert left == [left[0]] + left[1..];
        }
      }
      first + rest
  }

  predicate DistinctKeys(rows: seq<(string, real)>) {
    forall i, j :: 0 <= i < j < |rows| ==> rows[i].0 != rows[j].0
  }

  /** A name that no right row carries joins to nothing. */
  lemma {:induction false} JoinOneMissing(name: string, sawValue: real, right: seq<(string, real)>)
    requires forall j :: 0 <= j < |right| ==> right[j].0 != name
    ensures JoinOne(name, sawValue, right) == []
  {
    if right != [] {
      JoinOneMissing(name, sawValue, right[1..]);
    }
  }

  /** A name that exactly one right row carries joins to exactly that row. */
  lemma {:induction false} JoinOneUnique(name: string, sawValue: real, right: seq<(string, real)>, j: nat)
    requires DistinctKeys(right) && j < |right| && right[j].0 == name
    ensures JoinOne(name, sawValue, right) == [ChartRow(name, sawValue, right[j].1)]
  {
    if j == 0 {
      JoinOneMissing(name, sawValue, right[1..]);
    } else {
      JoinOneUnique(name, sawValue, right[1..], j - 1);
    }
  }

  /** With distinct names on the right and every left name found on the
      right at position idx[i], the merge has one row per left row, in left
      order, carrying the left value and the matching right value. */
  lemma {:induction false} MergeMatched(left: seq<(string, real)>, right: seq<(string, real)>, idx: seq<nat>)
    requires DistinctKeys(right) && |idx| == |left|
    requires forall i :: 0 <= i < |left| ==> idx[i] < |right| && right[idx[i]].0 == left[i].0
    ensures |Merge(left, right)| == |left|
    ensures forall i :: 0 <= i < |left| ==>
      Merge(left, right)[i] == ChartRow(left[i].0, left[i].1, right[idx[i]].1)
  {
    if left != [] {
      JoinOneUnique(left[0].0, left[0].1, right, idx[0]);
      MergeMatched(left[1..], right, idx[1..]);
    }
  }

  /** When both sides list the same distinct names in the same order, the
      merge pairs row i with row i. */
  lemma MergeAligned(left: seq<(string, real)>, right: seq<(string, real)>)
    requires |left| == |right| && DistinctKeys(right)
    requires forall i :: 0 <= i < |left| ==> left[i].0 == right[i].0
    ensures |Merge(left, right)| == |left|
    ensures forall i :: 0 <= i < |left| ==>
      Merge(left, right)[i] == ChartRow(left[i].0, left[i].1, right[i].1)
  {
    MergeMatched(left, right, seq(|left|, i => i));
  }
}
