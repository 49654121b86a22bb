/**
 * The pure selection rules inside the backend handlers: which reader a file
 * name selects, which columns an upload drops and label-encodes, which
 * columns a preprocess scales, and how the scaler and model names are
 * normalised.
 */
module ColumnRules {
  import opened Wrappers
  import opened Api
  import opened Text
  import opened Frames

  // ---------------------------------------------------------------- file names

  /** The reader an upload selects from the file name. */
  datatype Format = Csv | Excel | Unsupported

  /** The lower-cased name ending in `.csv` picks the CSV reader, `.xlsx`/`.xls` the Excel reader. */
  function FileFormat(filename: string): Format {
    var name := Lower(filename);
    if EndsWith(name, ".csv") then Csv
    else if EndsWith(name, ".xlsx") || EndsWith(name, ".xls") then Excel
    else Unsupported
  }

  /** Lower-casing distributes over concatenation. */
  lemma LowerAppend(a: string, b: string)
    ensures Lower(a + b) == Lower(a) + Lower(b)
  {
  }

  /** The extension test ignores case: upper-casing a name never changes the reader it selects. */
  lemma FileFormatIgnoresCase(filename: string)
    ensures FileFormat(Upper(filename)) == FileFormat(filename)
  {
    LowerOfUpper(filename);
  }

  /** Whatever precedes it, a name ending in `.CSV` (any case) selects the CSV reader. */
  lemma CsvSuffix(stem: string, ext: string)
    requires Lower(ext) == ".csv"
    ensures FileFormat(stem + ext) == Csv
  {
    LowerAppend(stem, ext);
    var name := Lower(stem + ext);
    assert name[|name| - 4..] == Lower(ext);
  }

  /** Whatever precedes it, a name ending in `.xls` or `.xlsx` (any case) selects the Excel reader. */
  lemma ExcelSuffix(stem: string, ext: string)
    requires Lower(ext) == ".xls" || Lower(ext) == ".xlsx"
    ensures FileFormat(stem + ext) == Excel
  {
    LowerAppend(stem, ext);
    var name := Lower(stem + ext);
    assert name[|name| - |ext|..] == Lower(ext);
    assert name[|name| - 4..] != ".csv" by {
      if Lower(ext) == ".xls" {
        assert name[|name| - 1] == 's';
      } else {
        assert name[|name| - 1] == 'x';
      }
    }
  }

  // ---------------------------------------------------------------- names sent by clients

  /** `req.method.lower()` checked against "standard" and "minmax". */
  function ScaleChoice(name: string): Option<ScaleMethod> {
    var m := Lower(name);
    if m == "standard" then Some(Standard)
    else if m == "minmax" then Some(MinMax)
    else None
  }

  /** `req.model.lower().strip()` checked against "logistic" and "tree". */
  function ModelChoice(model: string): Option<ModelKind> {
    var m := Strip(Lower(model));
    if m == "logistic" then Some(Logistic)
    else if m == "tree" then Some(Tree)
    else None
  }

  predicate AllSpace(s: string) {
    forall i :: 0 <= i < |s| ==> IsSpace(s[i])
  }

  /** Stripping a word surrounded by white space gives back the word. */
  lemma StripSurrounded(a: string, m: string, b: string)
    requires AllSpace(a) && AllSpace(b)
    requires m != [] && !IsSpace(m[0]) && !IsSpace(m[|m| - 1])
    ensures Strip(a + m + b) == m
  {
    var s := a + m + b;
    var r := Strip(s);
    assert forall i :: 0 <= i < |a| ==> IsSpace(s[i]);
    assert forall i :: |a| + |m| <= i < |s| ==> IsSpace(s[i]);
    assert !IsSpace(s[|a|]) && !IsSpace(s[|a| + |m| - 1]);
    var lo := LeadingSpaces(s);
    assert lo == |a|;
    assert |r| == |m|;
    assert r == s[|a|..|a| + |m|];
  }

  /** Lower-casing leaves white space alone. */
  lemma LowerAllSpace(s: string)
    requires AllSpace(s)
    ensures Lower(s) == s
  {
  }

  /**
   * The model name is matched case-insensitively and without surrounding
   * white space: any spelling that lower-cases to "logistic" or "tree",
   * padded with white space, picks that model.
   */
  lemma ModelChoiceTolerant(a: string, m: string, b: string)
    requires AllSpace(a) && AllSpace(b)
    requires Lower(m) == "logistic" || Lower(m) == "tree"
    ensures ModelChoice(a + m + b) == if Lower(m) == "logistic" then Some(Logistic) else Some(Tree)
  {
    LowerAppend(a + m, b);
    LowerAppend(a, m);
    LowerAllSpace(a);
    LowerAllSpace(b);
    var lm := Lower(m);
    assert !IsSpace(lm[0]) && !IsSpace(lm[|lm| - 1]);
    StripSurrounded(a, lm, b);
  }

  /** The name of a model as `/train` spells it. */
  function ModelName(k: ModelKind): string {
    if k == Logistic then "logistic" else "tree"
  }

  /** A character that lower-cases to white space was white space already. */
  lemma SpaceUnlowered(c: char)
    requires IsSpace(LowerChar(c))
    ensures IsSpace(c) && LowerChar(c) == c
  {
  }

  /**
   * The converse of `ModelChoiceTolerant`: an accepted model name is one of
   * the two names in some letter case, padded only with white space.
   */
  lemma ModelChoiceOnlyPadded(model: string, k: ModelKind)
    requires ModelChoice(model) == Some(k)
    ensures exists a, m, b :: model == a + m + b && AllSpace(a) && AllSpace(b) && Lower(m) == ModelName(k)
  {
    ModelChoiceStripped(model, k);
    var lo, hi := StripBounds(Lower(model));
    UnlowerPadding(model, lo, hi);
    var a, m, b := model[..lo], model[lo..hi], model[hi..];
    assert model == a + m + b;
  }

  /** An accepted model name strips and lowers to that model's name. */
  lemma ModelChoiceStripped(model: string, k: ModelKind)
    requires ModelChoice(model) == Some(k)
    ensures Strip(Lower(model)) == ModelName(k)
  {
  }

  /** White space around a slice of the lower-cased string was white space in the original. */
  lemma UnlowerPadding(s: string, lo: nat, hi: nat)
    requires lo <= hi <= |s|
    requires AllSpace(Lower(s)[..lo]) && AllSpace(Lower(s)[hi..])
    ensures AllSpace(s[..lo]) && AllSpace(s[hi..]) && Lower(s[lo..hi]) == Lower(s)[lo..hi]
  {
    LowerSlice(s, 0, lo);
    assert s[0..lo] == s[..lo];
    SpacesUnlowered(s[..lo]);
    LowerSlice(s, hi, |s|);
    assert s[hi..|s|] == s[hi..];
    SpacesUnlowered(s[hi..]);
    LowerSlice(s, lo, hi);
  }

  /** Where `strip` cuts: only white space before `lo` and from `hi` on. */
  lemma StripBounds(s: string) returns (lo: nat, hi: nat)
    ensures lo <= hi <= |s| && Strip(s) == s[lo..hi]
    ensures AllSpace(s[..lo]) && AllSpace(s[hi..])
  {
    lo := LeadingSpaces(s);
    hi := lo + |Strip(s)|;
    assert forall i :: 0 <= i < |s[hi..]| ==> s[hi..][i] == s[hi + i];
  }

  /** A string that lower-cases to white space was white space already. */
  lemma SpacesUnlowered(s: string)
    requires AllSpace(Lower(s))
    ensures AllSpace(s)
  {
    forall i | 0 <= i < |s| ensures IsSpace(s[i]) {
      assert Lower(s)[i] == LowerChar(s[i]);
      SpaceUnlowered(s[i]);
    }
  }

  /** The scaler name is matched case-insensitively. */
  lemma ScaleChoiceIgnoresCase(name: string)
    ensures ScaleChoice(Upper(name)) == ScaleChoice(name)
  {
    LowerOfUpper(name);
  }

  // ---------------------------------------------------------------- dropped columns

  /** The columns an upload drops when present. */
  const ProblemColumns: seq<string> := ["Name", "Ticket", "Cabin"]

  /** `df.drop(columns=[n])`: every column labelled `n` goes; the others stay in order. */
  function WithoutName(cols: seq<Column>, n: string): (r: seq<Column>)
    ensures forall c :: c in r <==> c in cols && c.name != n
    ensures |r| <= |cols|
  {
    if cols == [] then []
    else (if cols[0].name == n then [] else [cols[0]]) + WithoutName(cols[1..], n)
  }

  /** The columns whose label is not in `names`, in their original order. */
  function Without(cols: seq<Column>, names: seq<string>): (r: seq<Column>)
    ensures forall c :: c in r <==> c in cols && c.name !in names
    ensures |r| <= |cols|
  {
    if cols == [] then []
    else (if cols[0].name in names then [] else [cols[0]]) + Without(cols[1..], names)
  }

  /** Dropping a label the frame does not have changes nothing. */
  lemma {:induction false} WithoutNameAbsent(cols: seq<Column>, n: string)
    requires n !in Names(cols)
    ensures WithoutName(cols, n) == cols
  {
    if cols != [] {
      assert cols[0].name == Names(cols)[0];
      assert Names(cols[1..]) == Names(cols)[1..];
      WithoutNameAbsent(cols[1..], n);
    }
  }

  /** Dropping the labels one at a time is dropping them all at once. */
  lemma {:induction false} WithoutSnoc(cols: seq<Column>, names: seq<string>, n: string)
    ensures Without(cols, names + [n]) == WithoutName(Without(cols, names), n)
  {
    if cols != [] {
      WithoutSnoc(cols[1..], names, n);
      var c, rest := cols[0], Without(cols[1..], names);
      assert c.name in names + [n] <==> c.name in names || c.name == n;
      if c.name in names {
        assert Without(cols, names) == rest;
      } else {
        assert Without(cols, names) == [c] + rest;
        assert ([c] + rest)[1..] == rest;
        assert WithoutName([c] + rest, n) == (if c.name == n then [] else [c]) + WithoutName(rest, n);
      }
    }
  }

  /** The columns left once Name, Ticket and Cabin are dropped. */
  function Kept(cols: seq<Column>): (r: seq<Column>)
    ensures forall c :: c in r <==> c in cols && c.name !in ProblemColumns
  {
    Without(cols, ProblemColumns)
  }

  /** The upload's drop loop: each problem label is dropped if the frame has it. */
  method DropProblemColumns(cols: seq<Column>) returns (r: seq<Column>)
    ensures r == Kept(cols)
  {
    r := cols;
    assert ProblemColumns[..0] == [];
    WithoutNone(cols);
    for i := 0 to |ProblemColumns|
      invariant r == Without(cols, ProblemColumns[..i])
    {
      var bad := ProblemColumns[i];
      DropStep(cols, ProblemColumns[..i], bad);
      if bad in Names(r) {
        r := WithoutName(r, bad);
      }
      assert ProblemColumns[..i + 1] == ProblemColumns[..i] + [bad];
    }
    assert ProblemColumns[..|ProblemColumns|] == ProblemColumns;
  }

  /** One round of the drop loop: the guarded drop of `bad` extends the dropped labels by `bad`. */
  lemma DropStep(cols: seq<Column>, names: seq<string>, bad: string)
    ensures var r := Without(cols, names);
            (if bad in Names(r) then WithoutName(r, bad) else r) == Without(cols, names + [bad])
  {
    var r := Without(cols, names);
    WithoutSnoc(cols, names, bad);
    if bad !in Names(r) {
      WithoutNameAbsent(r, bad);
    }
  }

  /** Dropping no label keeps every column. */
  lemma {:induction false} WithoutNone(cols: seq<Column>)
    ensures Without(cols, []) == cols
  {
    if cols != [] {
      WithoutNone(cols[1..]);
    }
  }

  /** Dropping columns keeps the labels unique. */
  lemma {:induction false} WithoutDistinct(cols: seq<Column>, names: seq<string>)
    requires DistinctNames(cols)
    ensures DistinctNames(Without(cols, names))
  {
    if cols != [] {
      var tail := Without(cols[1..], names);
      WithoutDistinct(cols[1..], names);
      forall c | c in tail ensures c.name != cols[0].name {
        var k :| 0 <= k < |cols[1..]| && cols[1..][k] == c;
        assert cols[k + 1] == c;
      }
    }
  }

  // ---------------------------------------------------------------- encoded columns

  /**
   * A label-encoded column: integer codes, so numeric, and without missing
   * values (missing entries become the string "nan" before encoding).
   */
  function Encoded(c: Column): Column {
    c.(kind := Numeric, missing := seq(|c.missing|, _ => false))
  }

  /** Every categorical column label-encoded, every other column as it was. */
  function EncodeAll(cols: seq<Column>): seq<Column> {
    seq(|cols|, i requires 0 <= i < |cols| => if IsCategorical(cols[i]) then Encoded(cols[i]) else cols[i])
  }

  /** The labels of the categorical columns: the keys of the upload's `encoders`. */
  function CategoricalNames(cols: seq<Column>): (names: set<string>)
    ensures forall n :: n in names ==> n in Names(cols)
    ensures forall n :: n in names <==> exists i :: 0 <= i < |cols| && IsCategorical(cols[i]) && cols[i].name == n
  {
    if cols == [] then {}
    else
      var last := cols[|cols| - 1];
      assert forall i :: 0 <= i < |cols| - 1 ==> cols[..|cols| - 1][i] == cols[i];
      assert forall n :: n in Names(cols[..|cols| - 1]) ==> n in Names(cols) by {
        forall n | n in Names(cols[..|cols| - 1]) ensures n in Names(cols) {
          var k :| 0 <= k < |cols| - 1 && Names(cols[..|cols| - 1])[k] == n;
          assert Names(cols)[k] == n;
        }
      }
      assert last.name == Names(cols)[|cols| - 1];
      CategoricalNames(cols[..|cols| - 1]) + (if IsCategorical(last) then {last.name} else {})
  }

  /** The upload's encoding loop: encode each categorical column and record its encoder. */
  method EncodeCategorical(cols: seq<Column>) returns (r: seq<Column>, encoders: set<string>)
    ensures r == EncodeAll(cols)
    ensures encoders == CategoricalNames(cols)
  {
    r := cols;
    encoders := {};
    assert cols[..0] == [];
    for i := 0 to |cols|
      invariant |r| == |cols|
      invariant forall j :: 0 <= j < i ==> r[j] == EncodeAll(cols)[j]
      invariant forall j :: i <= j < |cols| ==> r[j] == cols[j]
      invariant encoders == CategoricalNames(cols[..i])
    {
      assert cols[..i + 1][..i] == cols[..i];
      if IsCategorical(r[i]) {
        encoders := encoders + {r[i].name};
        r := r[i := Encoded(r[i])];
      }
    }
    assert cols[..|cols|] == cols;
  }

  /** After encoding no column is categorical, and every encoded column has no missing value. */
  lemma EncodeAllNumericCodes(cols: seq<Column>)
    ensures forall i :: 0 <= i < |cols| ==> !IsCategorical(EncodeAll(cols)[i])
    ensures forall i :: 0 <= i < |cols| && IsCategorical(cols[i]) ==>
              EncodeAll(cols)[i].kind == Numeric && true !in EncodeAll(cols)[i].missing
    ensures Names(EncodeAll(cols)) == Names(cols)
  {
  }

  /** Encoding never loses a row to `dropna()`: every complete row stays complete. */
  lemma EncodeKeepsCompleteRows(cols: seq<Column>, n: nat)
    ensures CountComplete(cols, n) <= CountComplete(EncodeAll(cols), n)
  {
    CountCompleteMonotone(cols, EncodeAll(cols), n);
  }

  /** The frame an upload stores as `df`: problem columns dropped, categorical columns encoded. */
  function Prepared(f: Frame): Frame {
    Frame(EncodeAll(Kept(f.columns)), f.height)
  }

  /**
   * Preparing a well-formed frame gives a well-formed frame with no
   * categorical column, none of the problem labels, and every encoder key
   * among its labels.
   */
  lemma PreparedValid(f: Frame)
    requires WellFormed(f)
    ensures WellFormed(Prepared(f))
    ensures forall c :: c in Prepared(f).columns ==> !IsCategorical(c) && c.name !in ProblemColumns
    ensures forall n :: n in CategoricalNames(Kept(f.columns)) ==> n in Names(Prepared(f).columns)
  {
    var kept := Kept(f.columns);
    WithoutDistinct(f.columns, ProblemColumns);
    EncodeAllNumericCodes(kept);
    assert forall i :: 0 <= i < |kept| ==> kept[i] in f.columns;
  }

  // ---------------------------------------------------------------- scaled columns

  /** `df.select_dtypes(include=["number"]).columns.tolist()`. */
  function NumericNames(cols: seq<Column>): (names: seq<string>)
    ensures forall n :: n in names ==> n in Names(cols)
  {
    if cols == [] then []
    else
      assert Names(cols) == [cols[0].name] + Names(cols[1..]);
      (if cols[0].kind == Numeric then [cols[0].name] else []) + NumericNames(cols[1..])
  }

  /** `list.remove(x)`: drops the first occurrence of `x`. */
  function RemoveFirst(s: seq<string>, x: string): (r: seq<string>)
    requires x in s
    ensures |r| == |s| - 1
    ensures multiset(r) == multiset(s) - multiset{x}
    ensures forall y :: y in r ==> y in s
  {
    assert s == [s[0]] + s[1..];
    if s[0] == x then s[1..] else [s[0]] + RemoveFirst(s[1..], x)
  }

  /**
   * The columns a preprocess scales: the numeric columns with the last
   * column (the target) taken out of the list.
   */
  function ScaledColumns(cols: seq<Column>): seq<string>
    requires cols != []
  {
    var numeric := NumericNames(cols);
    var target := cols[|cols| - 1].name;
    if target in numeric then RemoveFirst(numeric, target) else numeric
  }

  /** Only numeric columns are scaled, each at most as often as it is listed. */
  lemma ScaledColumnsNumeric(cols: seq<Column>)
    requires cols != []
    ensures forall n :: n in ScaledColumns(cols) ==> n in NumericNames(cols) && n in Names(cols)
    ensures multiset(ScaledColumns(cols)) <= multiset(NumericNames(cols))
  {
  }

  lemma {:induction false} NumericNamesSnoc(cols: seq<Column>, c: Column)
    ensures NumericNames(cols + [c]) == NumericNames(cols) + (if c.kind == Numeric then [c.name] else [])
  {
    if cols != [] {
      assert (cols + [c])[1..] == cols[1..] + [c];
      NumericNamesSnoc(cols[1..], c);
    }
  }

  lemma {:induction false} RemoveFirstLast(s: seq<string>, x: string)
    requires x !in s
    ensures RemoveFirst(s + [x], x) == s
  {
    if s != [] {
      assert (s + [x])[1..] == s[1..] + [x];
      RemoveFirstLast(s[1..], x);
    }
  }

  /**
   * With unique labels, the scaled columns are exactly the numeric columns
   * among all but the last: the target column is never scaled.
   */
  lemma ScaledColumnsAreFeatures(cols: seq<Column>)
    requires cols != [] && DistinctNames(cols)
    ensures ScaledColumns(cols) == NumericNames(cols[..|cols| - 1])
    ensures cols[|cols| - 1].name !in ScaledColumns(cols)
  {
    var init, target := cols[..|cols| - 1], cols[|cols| - 1];
    assert cols == init + [target];
    NumericNamesSnoc(init, target);
    assert forall k :: 0 <= k < |init| ==> Names(init)[k] == cols[k].name != target.name;
    assert target.name !in Names(init);
    if target.kind == Numeric {
      RemoveFirstLast(NumericNames(init), target.name);
    }
  }

  /** `df[names] = scaler.fit_transform(df[names])`: the named columns record scaler `m`. */
  function ScaleColumns(cols: seq<Column>, names: seq<string>, m: ScaleMethod): seq<Column> {
    seq(|cols|, i requires 0 <= i < |cols| =>
      if cols[i].name in names then cols[i].(scaledBy := cols[i].scaledBy + [m]) else cols[i])
  }

  /**
   * A preprocess scales numeric feature columns only: the target column and
   * every non-numeric column keep their scaling history, and no label,
   * dtype class or missing flag changes.
   */
  lemma PreprocessScalesFeaturesOnly(cols: seq<Column>, m: ScaleMethod)
    requires cols != [] && DistinctNames(cols)
    ensures var out := ScaleColumns(cols, ScaledColumns(cols), m);
      && |out| == |cols|
      && out[|cols| - 1] == cols[|cols| - 1]
      && (forall i :: 0 <= i < |cols| ==>
            out[i].name == cols[i].name && out[i].kind == cols[i].kind && out[i].missing == cols[i].missing)
      && (forall i :: 0 <= i < |cols| && cols[i].kind != Numeric ==> out[i] == cols[i])
      && (forall i :: 0 <= i < |cols| - 1 && cols[i].kind == Numeric ==>
            out[i].scaledBy == cols[i].scaledBy + [m])
  {
    ScaledColumnsAreFeatures(cols);
    var scaled := ScaledColumns(cols);
    forall i | 0 <= i < |cols| - 1 && cols[i].kind == Numeric
      ensures cols[i].name in scaled
    {
      NumericListed(cols[..|cols| - 1], i);
    }
    forall i | 0 <= i < |cols| && cols[i].kind != Numeric
      ensures cols[i].name !in scaled
    {
      NonNumericAbsent(cols[..|cols| - 1], cols[i].name);
    }
  }

  /** A label carried only by non-numeric columns is not listed by NumericNames. */
  lemma {:induction false} NonNumericAbsent(cols: seq<Column>, n: string)
    requires forall j :: 0 <= j < |cols| && cols[j].name == n ==> cols[j].kind != Numeric
    ensures n !in NumericNames(cols)
  {
    if cols != [] {
      NonNumericAbsent(cols[1..], n);
    }
  }

  /** A numeric column's label is listed by NumericNames. */
  lemma {:induction false} NumericListed(cols: seq<Column>, i: nat)
    requires i < |cols| && cols[i].kind == Numeric
    ensures cols[i].name in NumericNames(cols)
  {
    if i > 0 {
      NumericListed(cols[1..], i - 1);
    }
  }
}
