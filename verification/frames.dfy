/**
 * The backend's pandas data frames, abstracted to what the handlers look at:
 * the ordered columns with their labels and dtype class, which rows hold a
 * missing value (NaN/NaT) in each column, and which scalers have been
 * applied to each column. Cell values are not modelled.
 */
module Frames {
  import opened Api

  /** The dtype class of a column: a number dtype, `object`, `category`, or anything else (bool, datetime). */
  datatype Kind = Numeric | Object | Category | Other

  /**
   * One column: its label, its dtype class, one missing-value flag per row,
   * and the scalers fitted on it so far, oldest first.
   */
  datatype Column = Column(name: string, kind: Kind, missing: seq<bool>, scaledBy: seq<ScaleMethod>)

  /** A frame: its columns in order and its number of rows. */
  datatype Frame = Frame(columns: seq<Column>, height: nat)

  /** Columns whose dtype is `object` or starts with `category`: the ones the upload label-encodes. */
  predicate IsCategorical(c: Column) {
    c.kind == Object || c.kind == Category
  }

  /** `list(df.columns)`. */
  function Names(cols: seq<Column>): seq<string> {
    seq(|cols|, i requires 0 <= i < |cols| => cols[i].name)
  }

  predicate DistinctNames(cols: seq<Column>) {
    forall i, j :: 0 <= i < j < |cols| ==> cols[i].name != cols[j].name
  }

  /**
   * A frame as the pandas readers produce it: every column has one flag per
   * row, and labels are unique (the readers rename repeated headers).
   */
  predicate WellFormed(f: Frame) {
    && DistinctNames(f.columns)
    && forall i :: 0 <= i < |f.columns| ==> |f.columns[i].missing| == f.height
  }

  /** Row `r` has no missing value in any column. */
  predicate RowComplete(cols: seq<Column>, r: nat) {
    forall i :: 0 <= i < |cols| && r < |cols[i].missing| ==> !cols[i].missing[r]
  }

  /** How many of the first `n` rows have no missing value. */
  function CountComplete(cols: seq<Column>, n: nat): (k: nat)
    ensures k <= n
  {
    if n == 0 then 0
    else CountComplete(cols, n - 1) + (if RowComplete(cols, n - 1) then 1 else 0)
  }

  /** `df.dropna().shape[0]`: the number of rows without any missing value. */
  function CompleteRows(f: Frame): (k: nat)
    ensures k <= f.height
  {
    CountComplete(f.columns, f.height)
  }

  /**
   * A frame in which every row that was complete in `a` is complete in `b`
   * keeps at least as many rows through `dropna()`.
   */
  lemma {:induction false} CountCompleteMonotone(a: seq<Column>, b: seq<Column>, n: nat)
    requires forall r :: 0 <= r < n && RowComplete(a, r) ==> RowComplete(b, r)
    ensures CountComplete(a, n) <= CountComplete(b, n)
  {
    if n > 0 {
      CountCompleteMonotone(a, b, n - 1);
    }
  }

  /** A frame with no missing value anywhere loses no row to `dropna()`. */
  lemma {:induction false} NoMissingKeepsAllRows(cols: seq<Column>, n: nat)
    requires forall i, r :: 0 <= i < |cols| && 0 <= r < |cols[i].missing| ==> !cols[i].missing[r]
    ensures CountComplete(cols, n) == n
  {
    if n > 0 {
      NoMissingKeepsAllRows(cols, n - 1);
    }
  }
}
