/** The data the calculator works on: one row of raw attribute values per
    alternative, the crisp matrix derived from it, and the five criterion
    weights. */
module Criteria {

  /** One row of the editable table: a display name and one raw value per
      criterion (C1 MDR fee, C2 monthly fee, C3 number of channels,
      C4 speed on a 1-4 scale, C5 integration on a 1-4 scale). */
  datatype Alternative = Alternative(name: string, c1: int, c2: int, c3: int, c4: int, c5: int)

  /** The bounds the table editor puts on every column: C1-C3 at least 0,
      C4 and C5 between 1 and 4. */
  predicate ValidAlternative(a: Alternative) {
    && a.c1 >= 0 && a.c2 >= 0 && a.c3 >= 0
    && 1 <= a.c4 <= 4 && 1 <= a.c5 <= 4
  }

  predicate ValidTable(table: seq<Alternative>) {
    forall i :: 0 <= i < |table| ==> ValidAlternative(table[i])
  }

  /** No two alternatives share a display name. */
  predicate DistinctNames(table: seq<Alternative>) {
    forall i, j :: 0 <= i < j < |table| ==> table[i].name != table[j].name
  }

  /** The four values a crisp score can take. */
  predicate IsCrispScore(x: real) {
    x == 0.25 || x == 0.5 || x == 0.75 || x == 1.0
  }

  /** One row of the crisp matrix. */
  datatype CrispRow = CrispRow(name: string, c1: real, c2: real, c3: real, c4: real, c5: real)

  predicate IsCrispRow(r: CrispRow) {
    IsCrispScore(r.c1) && IsCrispScore(r.c2) && IsCrispScore(r.c3) && IsCrispScore(r.c4) && IsCrispScore(r.c5)
  }

  /** The five criterion weights as entered; they are never normalised. */
  datatype Weights = Weights(c1: real, c2: real, c3: real, c4: real, c5: real) {
    function Total(): real {
      c1 + c2 + c3 + c4 + c5
    }

    predicate NonNegative() {
      c1 >= 0.0 && c2 >= 0.0 && c3 >= 0.0 && c4 >= 0.0 && c5 >= 0.0
    }

    predicate Positive() {
      c1 > 0.0 && c2 > 0.0 && c3 > 0.0 && c4 > 0.0 && c5 > 0.0
    }
  }
}
