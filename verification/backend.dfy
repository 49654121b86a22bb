/**
 * The backend's single implicit session: the global `STATE` dictionary and
 * the five handlers that update it (`/upload`, `/preprocess`, `/split`,
 * `/train`, `/reset`). Reading files, scaling, splitting and fitting are
 * foreign library calls; each handler takes the outcome of its library
 * call as a parameter.
 */
module Backend {
  import opened Wrappers
  import opened Api
  import opened Text
  import opened Frames
  import opened ColumnRules

  /** A dictionary key that may be missing, hold None, or hold a value. */
  datatype Entry<T> = Absent | Null | Present(value: T)

  /** What the pandas reader the file name selected does with the uploaded bytes. */
  datatype ReadOutcome = Parsed(frame: Frame) | ReadRaised(message: string)

  /** What scaling the selected columns does. */
  datatype ScaleOutcome = Scaled | ScaleRaised(message: string)

  /**
   * What `train_test_split` does: the row counts of the two parts, or an
   * exception from the second (unstratified) attempt, which nothing catches.
   */
  datatype SplitOutcome = Partitioned(trainRows: nat, testRows: nat) | SplitRaised

  /**
   * What fitting and evaluating the model does: metrics and the confusion
   * image (None when drawing it raised), an exception from `fit`, or an
   * exception from prediction or metrics, which nothing catches.
   */
  datatype FitOutcome =
    | Fitted(metrics: Metrics, confusion: Option<string>)
    | FitRaised(message: string, traceback: string)
    | EvaluationRaised

  /** One of `X_train`, `X_test`, `y_train`, `y_test`: its row count and column labels. */
  datatype Slice = Slice(rows: nat, columns: seq<string>)

  const NoDataset := "Upload a dataset first!"
  const OnlyTabular := "Only CSV, XLS, XLSX allowed"
  const TooFewColumns := "Dataset must have at least 2 columns."
  const BadMethod := "method must be standard or minmax"
  const NotEnoughRows := "Not enough data after dropping NaNs."
  const NoSplit := "Split the dataset first"
  const BadModel := "Model must be logistic or tree"

  /** The `detail` of a 400 raised inside the reading `try`, as the `except` clause re-wraps it. */
  function ReadingFailed(message: string): string {
    "Reading failed: " + message
  }

  /**
   * The `detail` of the 400 an upload answers with, checked in order: an
   * extension other than .csv/.xlsx/.xls (raised inside the reading `try`
   * and re-wrapped by its own `except`), a reader that raised, and a frame
   * with fewer than two columns. None when the upload is accepted.
   */
  function UploadRejection(filename: string, read: ReadOutcome): (detail: Option<string>)
    ensures FileFormat(filename) == Unsupported ==> detail == Some(ReadingFailed("400: " + OnlyTabular))
    ensures FileFormat(filename) != Unsupported && read.ReadRaised? ==>
              detail == Some(ReadingFailed(read.message))
    ensures FileFormat(filename) != Unsupported && read.Parsed? && |read.frame.columns| < 2 ==>
              detail == Some(TooFewColumns)
    ensures detail.None? <==> FileFormat(filename) != Unsupported && read.Parsed? && |read.frame.columns| >= 2
  {
    if FileFormat(filename) == Unsupported then Some(ReadingFailed("400: " + OnlyTabular))
    else if read.ReadRaised? then Some(ReadingFailed(read.message))
    else if |read.frame.columns| < 2 then Some(TooFewColumns)
    else None
  }

  /** At most five preview records: `df.head(5)`. */
  function PreviewSize(height: nat): (n: nat)
    ensures n <= 5 && n <= height
    ensures n == 5 || n == height
  {
    if height < 5 then height else 5
  }

  /** The upload's answer: the name as sent, the raw frame's shape and labels, and the preview size. */
  function UploadBody(filename: string, f: Frame): UploadResponse {
    UploadResponse(filename, f.height, |f.columns|, Names(f.columns), PreviewSize(f.height))
  }

  /**
   * One of the first five raw rows has a missing cell in a number, `object`
   * or `category` column. `df.head(5)` then carries a float NaN into the
   * response, and the JSON renderer refuses NaN. A missing datetime is NaT,
   * which the encoder writes as the string "NaT", so it does not count.
   */
  predicate PreviewHasMissing(f: Frame) {
    exists i, r :: 0 <= i < |f.columns| && f.columns[i].kind != Other
      && 0 <= r < PreviewSize(f.height) && r < |f.columns[i].missing| && f.columns[i].missing[r]
  }

  /** A blank date in the first row of a spreadsheet is NaT, and the preview carrying it is sent. */
  lemma NaTPreviewSent()
    ensures !PreviewHasMissing(Frame([Column("when", Other, [true], []), Column("y", Numeric, [false], [])], 1))
  {
    var f := Frame([Column("when", Other, [true], []), Column("y", Numeric, [false], [])], 1);
    forall i, r | 0 <= i < |f.columns| && 0 <= r < PreviewSize(f.height) && r < |f.columns[i].missing|
      ensures f.columns[i].kind == Other || !f.columns[i].missing[r]
    {
      assert i == 0 || i == 1;
    }
  }

  /**
   * A frame of the kind the dropped-column list is written for: two rows, a
   * `Cabin` column whose first cell is empty.
   */
  function CabinFrame(): (f: Frame)
    ensures WellFormed(f) && |f.columns| == 3
  {
    Frame([Column("PassengerId", Numeric, [false, false], []),
           Column("Cabin", Object, [true, false], []),
           Column("Survived", Numeric, [false, false], [])], 2)
  }

  /**
   * Uploading the Cabin frame passes every check, so the state is replaced;
   * its preview holds a missing cell, so the answer is a 500.
   */
  lemma PreviewRefusedAfterStore()
    ensures UploadRejection("train.csv", Parsed(CabinFrame())).None?
    ensures PreviewHasMissing(CabinFrame())
  {
    CsvSuffix("train", ".csv");
    assert "train" + ".csv" == "train.csv";
    assert CabinFrame().columns[1].missing[0];
  }

  /**
   * The working frame is well formed, has no categorical column left, and
   * has a column for every encoder key.
   */
  ghost predicate FrameInvariant(f: Frame, keys: set<string>) {
    && WellFormed(f)
    && (forall c :: c in f.columns ==> !IsCategorical(c))
    && (forall n :: n in keys ==> n in Names(f.columns))
  }

  /** The frame and encoders an upload stores satisfy the invariant. */
  lemma UploadedFrameInvariant(f: Frame)
    requires WellFormed(f)
    ensures FrameInvariant(Prepared(f), CategoricalNames(Kept(f.columns)))
  {
    PreparedValid(f);
  }

  /** The working frame once its feature columns are scaled with `m`. */
  function Rescaled(f: Frame, m: ScaleMethod): Frame
    requires f.columns != []
  {
    Frame(ScaleColumns(f.columns, ScaledColumns(f.columns), m), f.height)
  }

  /** Scaling the feature columns keeps the frame invariant. */
  lemma PreprocessKeepsInvariant(f: Frame, keys: set<string>, m: ScaleMethod)
    requires FrameInvariant(f, keys) && f.columns != []
    ensures FrameInvariant(Rescaled(f, m), keys)
  {
    PreprocessScalesFeaturesOnly(f.columns, m);
    var out := ScaleColumns(f.columns, ScaledColumns(f.columns), m);
    assert Names(out) == Names(f.columns);
    assert forall c :: c in out ==> !IsCategorical(c) by {
      forall c | c in out ensures !IsCategorical(c) {
        var i :| 0 <= i < |out| && out[i] == c;
        assert f.columns[i] in f.columns;
      }
    }
  }

  class Session {
    var rawDf: Option<Frame>
    var df: Option<Frame>
    var encoders: Option<set<string>>
    var xTrain: Option<Slice>
    var xTest: Option<Slice>
    var yTrain: Option<Slice>
    var yTest: Option<Slice>
    var model: Option<ModelKind>
    var lastMetrics: Entry<Metrics>
    var lastConfusion: Entry<string>

    /**
     * What every handler keeps true: the raw and working frames come and go
     * together, and the working frame keeps its invariant; the four split
     * parts come and go together and only with a frame; a model exists only
     * with a split.
     */
    ghost predicate Valid()
      reads this
    {
      && (rawDf.Some? <==> df.Some?)
      && (df.Some? ==> encoders.Some? && FrameInvariant(df.value, encoders.value))
      && xTest.Some? == xTrain.Some? && yTrain.Some? == xTrain.Some? && yTest.Some? == xTrain.Some?
      && (xTrain.Some? ==> df.Some?)
      && (model.Some? ==> xTrain.Some?)
    }

    /** `ensure_df_present()`: the handlers other than upload and reset refuse to run without it. */
    predicate HasDataset()
      reads this
    {
      df.Some?
    }

    /** The state at process start. */
    constructor ()
      ensures Valid()
      ensures rawDf.None? && df.None? && encoders == Some({})
      ensures xTrain.None? && xTest.None? && yTrain.None? && yTest.None? && model.None?
      ensures lastMetrics.Absent? && lastConfusion.Absent?
    {
      rawDf, df, encoders := None, None, Some({});
      xTrain, xTest, yTrain, yTest := None, None, None, None;
      model := None;
      lastMetrics, lastConfusion := Absent, Absent;
    }

    /**
     * The upload's state update: store the raw frame and the prepared frame
     * with its encoders, and clear the split and the model.
     */
    method Store(f: Frame)
      requires Valid() && WellFormed(f)
      modifies this
      ensures Valid()
      ensures rawDf == Some(f) && df == Some(Prepared(f)) && encoders == Some(CategoricalNames(Kept(f.columns)))
      ensures xTrain.None? && xTest.None? && yTrain.None? && yTest.None? && model.None?
      ensures lastMetrics == old(lastMetrics) && lastConfusion == old(lastConfusion)
    {
      var kept := DropProblemColumns(f.columns);
      var encoded, keys := EncodeCategorical(kept);
      UploadedFrameInvariant(f);
      Install(f, Frame(encoded, f.height), keys);
    }

    /** Puts a raw frame and its prepared frame and encoders in place, and drops the split and the model. */
    method Install(raw: Frame, prepared: Frame, keys: set<string>)
      requires Valid() && FrameInvariant(prepared, keys)
      modifies this
      ensures Valid()
      ensures rawDf == Some(raw) && df == Some(prepared) && encoders == Some(keys)
      ensures xTrain.None? && xTest.None? && yTrain.None? && yTest.None? && model.None?
      ensures lastMetrics == old(lastMetrics) && lastConfusion == old(lastConfusion)
    {
      rawDf, df, encoders := Some(raw), Some(prepared), Some(keys);
      xTrain, xTest, yTrain, yTest := None, None, None, None;
      model := None;
    }

    /**
     * `/upload`: pick the reader by extension, reject unreadable files and
     * frames with fewer than two columns, then store the raw frame and the
     * prepared frame and clear the split and the model. Only then is the
     * response rendered, and a missing cell in its preview makes rendering
     * fail with a bare 500 although the state has already changed.
     */
    method Upload(filename: string, read: ReadOutcome) returns (reply: Reply<UploadResponse>)
      requires Valid()
      requires read.Parsed? ==> WellFormed(read.frame)
      modifies this
      ensures Valid()
      ensures reply.Error? && reply.status == BadRequest <==> UploadRejection(filename, read).Some?
      ensures UploadRejection(filename, read).Some? ==>
                reply == Error(BadRequest, UploadRejection(filename, read)) && unchanged(this)
      ensures UploadRejection(filename, read).None? ==>
                var f := read.frame;
                && rawDf == Some(f)
                && df == Some(Prepared(f))
                && encoders == Some(CategoricalNames(Kept(f.columns)))
                && xTrain.None? && xTest.None? && yTrain.None? && yTest.None? && model.None?
                && lastMetrics == old(lastMetrics) && lastConfusion == old(lastConfusion)
                && (reply.Ok? <==> !PreviewHasMissing(f))
                && (reply.Ok? ==> reply.body == UploadBody(filename, f))
                && (reply.Error? ==> reply == Error(ServerError, None))
    {
      var rejection := UploadRejection(filename, read);
      if rejection.Some? {
        return Error(BadRequest, rejection);
      }
      Store(read.frame);
      if PreviewHasMissing(read.frame) {
        // the JSON renderer refuses the NaN that `df.head(5)` carries
        reply := Error(ServerError, None);
      } else {
        reply := Ok(UploadBody(filename, read.frame));
      }
    }

    /**
     * `/upload` with the preview's missing cells sent as JSON null: the
     * upload succeeds exactly when it changes the state.
     */
    method UploadNullPreview(filename: string, read: ReadOutcome) returns (reply: Reply<UploadResponse>)
      requires Valid()
      requires read.Parsed? ==> WellFormed(read.frame)
      modifies this
      ensures Valid()
      ensures reply.Error? <==> UploadRejection(filename, read).Some?
      ensures reply.Error? ==> reply == Error(BadRequest, UploadRejection(filename, read)) && unchanged(this)
      ensures reply.Ok? ==>
                var f := read.frame;
                && reply.body == UploadBody(filename, f)
                && rawDf == Some(f)
                && df == Some(Prepared(f))
                && encoders == Some(CategoricalNames(Kept(f.columns)))
                && xTrain.None? && xTest.None? && yTrain.None? && yTest.None? && model.None?
                && lastMetrics == old(lastMetrics) && lastConfusion == old(lastConfusion)
    {
      var rejection := UploadRejection(filename, read);
      if rejection.Some? {
        return Error(BadRequest, rejection);
      }
      Store(read.frame);
      reply := Ok(UploadBody(filename, read.frame));
    }

    /**
     * `/preprocess`: requires a dataset and a known scaler name; scales the
     * numeric feature columns in place and clears the split and the model.
     * With no numeric feature column it answers `no_numeric_columns` and
     * changes nothing.
     */
    method Preprocess(requested: string, scaling: ScaleOutcome) returns (reply: Reply<PreprocessResponse>)
      requires Valid()
      modifies this
      ensures Valid()
      ensures old(df).None? ==> reply == Error(BadRequest, Some(NoDataset))
      ensures old(df).Some? && ScaleChoice(requested).None? ==> reply == Error(BadRequest, Some(BadMethod))
      ensures old(df).Some? && ScaleChoice(requested).Some? && old(df).value.columns == [] ==>
                reply == Error(ServerError, None)
      ensures old(df).Some? && ScaleChoice(requested).Some? && old(df).value.columns != [] ==>
                var names := ScaledColumns(old(df).value.columns);
                && (names == [] ==> reply == Ok(NoNumericColumns))
                && (names != [] && scaling.ScaleRaised? ==>
                      reply == Error(ServerError, Some("Scaling failed: " + scaling.message)))
                && (names != [] && scaling.Scaled? ==> reply == Ok(PreprocessingApplied(names)))
      ensures reply.Error? || reply == Ok(NoNumericColumns) ==> unchanged(this)
      ensures reply.Ok? && reply.body.PreprocessingApplied? ==>
                var f := old(df).value;
                && ScaleChoice(requested).Some? && f.columns != []
                && df == Some(Rescaled(f, ScaleChoice(requested).value))
                && rawDf == old(rawDf) && encoders == old(encoders)
                && xTrain.None? && xTest.None? && yTrain.None? && yTest.None? && model.None?
                && lastMetrics == old(lastMetrics) && lastConfusion == old(lastConfusion)
    {
      if !HasDataset() {
        return Error(BadRequest, Some(NoDataset));
      }
      var f := df.value;
      var choice := ScaleChoice(requested);
      if choice.None? {
        return Error(BadRequest, Some(BadMethod));
      }
      if f.columns == [] {
        // `df.columns[-1]` raises IndexError, which nothing catches
        return Error(ServerError, None);
      }
      var names := ScaledColumns(f.columns);
      if names == [] {
        return Ok(NoNumericColumns);
      }
      if scaling.ScaleRaised? {
        return Error(ServerError, Some("Scaling failed: " + scaling.message));
      }
      Rescale(choice.value);
      reply := Ok(PreprocessingApplied(names));
    }

    /**
     * The preprocess handler's state update: the working frame's features
     * scaled with `m`, and the split and the model cleared.
     */
    method Rescale(m: ScaleMethod)
      requires Valid() && df.Some? && df.value.columns != []
      modifies this
      ensures Valid()
      ensures df == Some(Rescaled(old(df).value, m))
      ensures rawDf == old(rawDf) && encoders == old(encoders)
      ensures xTrain.None? && xTest.None? && yTrain.None? && yTest.None? && model.None?
      ensures lastMetrics == old(lastMetrics) && lastConfusion == old(lastConfusion)
    {
      PreprocessKeepsInvariant(df.value, encoders.value, m);
      df := Some(Rescaled(df.value, m));
      xTrain, xTest, yTrain, yTest := None, None, None, None;
      model := None;
    }

    /**
     * `/split`: requires a dataset with at least two complete rows; stores
     * the four parts of a fresh train/test split of a copy of the frame and
     * clears the model. The stored frame itself is never changed.
     */
    method Split(testSize: real, partition: SplitOutcome) returns (reply: Reply<SplitResponse>)
      requires Valid()
      modifies this
      ensures Valid()
      ensures old(df).None? ==> reply == Error(BadRequest, Some(NoDataset))
      ensures old(df).Some? && CompleteRows(old(df).value) < 2 ==> reply == Error(BadRequest, Some(NotEnoughRows))
      ensures old(df).Some? && CompleteRows(old(df).value) >= 2 ==>
                (old(df).value.columns == [] || partition.SplitRaised? <==> reply == Error(ServerError, None))
      ensures old(df).Some? && CompleteRows(old(df).value) >= 2 && old(df).value.columns != [] && partition.Partitioned? ==>
                reply.Ok?
      ensures reply.Error? ==> unchanged(this)
      ensures df == old(df) && rawDf == old(rawDf) && encoders == old(encoders)
      ensures lastMetrics == old(lastMetrics) && lastConfusion == old(lastConfusion)
      ensures reply.Ok? ==>
                var cols := old(df).value.columns;
                && partition.Partitioned? && cols != []
                && reply.body == SplitDone(partition.trainRows, partition.testRows)
                && xTrain == Some(Slice(partition.trainRows, Names(cols[..|cols| - 1])))
                && xTest == Some(Slice(partition.testRows, Names(cols[..|cols| - 1])))
                && yTrain == Some(Slice(partition.trainRows, [cols[|cols| - 1].name]))
                && yTest == Some(Slice(partition.testRows, [cols[|cols| - 1].name]))
                && model.None?
    {
      if !HasDataset() {
        return Error(BadRequest, Some(NoDataset));
      }
      var f := df.value;
      if CompleteRows(f) < 2 {
        return Error(BadRequest, Some(NotEnoughRows));
      }
      if f.columns == [] {
        // `df.iloc[:, -1]` raises IndexError, which nothing catches
        return Error(ServerError, None);
      }
      if partition.SplitRaised? {
        return Error(ServerError, None);
      }
      var features := Names(f.columns[..|f.columns| - 1]);
      var target := [f.columns[|f.columns| - 1].name];
      xTrain := Some(Slice(partition.trainRows, features));
      xTest := Some(Slice(partition.testRows, features));
      yTrain := Some(Slice(partition.trainRows, target));
      yTest := Some(Slice(partition.testRows, target));
      model := None;
      reply := Ok(SplitDone(partition.trainRows, partition.testRows));
    }

    /**
     * `/train`: checks, in this order, that a dataset is loaded, that a split
     * exists and that the model name is known; a fit that raises leaves the
     * previous model in place. On success it stores the model, the metrics
     * and the confusion image.
     */
    method Train(requested: string, fit: FitOutcome) returns (reply: Reply<TrainResponse>)
      requires Valid()
      modifies this
      ensures Valid()
      ensures old(df).None? ==> reply == Error(BadRequest, Some(NoDataset))
      ensures old(df).Some? && old(xTrain).None? ==> reply == Error(BadRequest, Some(NoSplit))
      ensures old(df).Some? && old(xTrain).Some? && ModelChoice(requested).None? ==>
                reply == Error(BadRequest, Some(BadModel))
      ensures old(df).Some? && old(xTrain).Some? && ModelChoice(requested).Some? ==>
                && (fit.FitRaised? ==>
                      reply == Error(ServerError, Some("Training failed: " + fit.message + "\n" + fit.traceback)))
                && (fit.EvaluationRaised? ==> reply == Error(ServerError, None))
                && (fit.Fitted? ==> reply == Ok(ModelTrained(fit.metrics, fit.confusion)))
      ensures reply.Error? ==> unchanged(this)
      ensures rawDf == old(rawDf) && df == old(df) && encoders == old(encoders)
      ensures xTrain == old(xTrain) && xTest == old(xTest) && yTrain == old(yTrain) && yTest == old(yTest)
      ensures reply.Ok? ==>
                && fit.Fitted?
                && model == ModelChoice(requested)
                && lastMetrics == Present(fit.metrics)
                && lastConfusion == (if fit.confusion.Some? then Present(fit.confusion.value) else Null)
    {
      if !HasDataset() {
        return Error(BadRequest, Some(NoDataset));
      }
      if xTrain.None? {
        return Error(BadRequest, Some(NoSplit));
      }
      var choice := ModelChoice(requested);
      if choice.None? {
        return Error(BadRequest, Some(BadModel));
      }
      match fit
      case FitRaised(message, traceback) =>
        reply := Error(ServerError, Some("Training failed: " + message + "\n" + traceback));
      case EvaluationRaised =>
        // prediction and metrics run outside any `try`
        reply := Error(ServerError, None);
      case Fitted(metrics, confusion) =>
        model := choice;
        lastMetrics := Present(metrics);
        lastConfusion := if confusion.Some? then Present(confusion.value) else Null;
        reply := Ok(ModelTrained(metrics, confusion));
    }

    /**
     * `/reset`: every key of `STATE` that exists is set to None, the
     * encoders included; keys that `/train` has not yet added stay absent.
     */
    method Reset() returns (reply: Reply<ResetResponse>)
      requires Valid()
      modifies this
      ensures Valid()
      ensures reply == Ok(ResetDone)
      ensures rawDf.None? && df.None? && encoders.None?
      ensures xTrain.None? && xTest.None? && yTrain.None? && yTest.None? && model.None?
      ensures lastMetrics == (if old(lastMetrics).Absent? then Absent else Null)
      ensures lastConfusion == (if old(lastConfusion).Absent? then Absent else Null)
    {
      rawDf, df, encoders := None, None, None;
      xTrain, xTest, yTrain, yTest := None, None, None, None;
      model := None;
      if !lastMetrics.Absent? {
        lastMetrics := Null;
      }
      if !lastConfusion.Absent? {
        lastConfusion := Null;
      }
      reply := Ok(ResetDone);
    }
  }
}
