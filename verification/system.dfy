/**
 * The front end and the backend session together, under sequential use:
 * each front-end action runs to completion before the next starts, and the
 * transport delivers the backend's reply unchanged.
 */
module System {
  import opened Wrappers
  import opened Api
  import opened Text
  import opened Ui
  import opened Frames
  import opened ColumnRules
  import opened Backend
  import opened Controller
  import DatasetUpload
  import Preprocessing
  import TrainTestSplit
  import ModelSelection

  /** What the front end's cells promise about the backend session. */
  ghost predicate Coupled(app: App, s: Session)
    reads app, s
  {
    && (app.uploaded.Some? ==> s.df.Some?)
    && (app.splitDone ==> s.xTrain.Some?)
    && (app.results.Some? ==> s.model.Some?)
  }

  /** Both scaler names the preprocessing card sends are accepted by `/preprocess`. */
  lemma SentScalersAccepted(b: Preprocessing.Button)
    ensures ScaleChoice(Preprocessing.MethodOf(b)).Some?
  {
    assert Lower("standard") == "standard";
    assert Lower("minmax") == "minmax";
  }

  /** Both model names the model cards send are accepted by `/train`, as the model they name. */
  lemma SentModelsAccepted(c: ModelSelection.Card)
    ensures ModelChoice(ModelSelection.ModelOf(c)) == Some(if c == ModelSelection.LogisticCard then Logistic else Tree)
  {
    assert Lower("logistic") == "logistic";
    assert Lower("tree") == "tree";
    StripTrimmed("logistic");
    StripTrimmed("tree");
  }

  /** A fresh front end and a fresh backend are coupled. */
  lemma StartCoupled(app: App, s: Session)
    requires app.State() == Initial
    ensures Coupled(app, s)
  {
  }

  /**
   * Upload: with a file chosen the backend is asked and the front end
   * records the reply. A rejected upload changes neither side. An accepted
   * upload whose preview holds a missing cell replaces the backend's state
   * but reaches the front end as a failure, so the front end keeps its
   * cells: the two sides stay coupled only if no split or results were
   * shown.
   */
  method Upload(app: App, panel: DatasetUpload.UploadPanel, s: Session, read: ReadOutcome)
    returns (fx: seq<Effect>, answer: Option<Reply<UploadResponse>>)
    requires app.Valid() && s.Valid() && Coupled(app, s)
    requires read.Parsed? ==> WellFormed(read.frame)
    modifies app, panel, s
    ensures app.Valid() && s.Valid()
    ensures app.uploaded.Some? ==> s.df.Some?
    ensures answer != Some(Error(ServerError, None)) ==> Coupled(app, s)
    ensures answer.Some? <==> old(panel.file).Some?
    ensures answer.None? ==> app.State() == old(app.State()) && unchanged(s)
    ensures panel.file == old(panel.file)
    ensures panel.meta == if answer.Some? && answer.value.Ok? then Some(answer.value.body) else old(panel.meta)
    ensures answer.Some? ==>
              var name := old(panel.file).value.name;
              answer.value == if UploadRejection(name, read).Some? then Error(BadRequest, UploadRejection(name, read))
                              else if PreviewHasMissing(read.frame) then Error(ServerError, None)
                              else Ok(UploadBody(name, read.frame))
    ensures answer.Some? && answer.value.Ok? ==>
              app.State() == AfterUploaded(old(app.State()), Some(answer.value.body)) && s.df == Some(Prepared(read.frame))
    ensures answer.Some? && answer.value.Error? && answer.value.status == BadRequest ==>
              app.State() == old(app.State()) && unchanged(s)
    ensures answer == Some(Error(ServerError, None)) ==>
              && app.State() == old(app.State())
              && read.Parsed? && s.df == Some(Prepared(read.frame)) && s.xTrain.None? && s.model.None?
              && (Coupled(app, s) <==> !app.splitDone && app.results.None?)
  {
    var reply: Outcome<UploadResponse> := Failure(None);
    answer := None;
    if panel.file.Some? {
      var r := s.Upload(panel.file.value.name, read);
      answer := Some(r);
      reply := Deliver(r);
    }
    fx := app.RequestUpload(panel, reply);
  }

  /**
   * Upload against the backend that sends missing preview cells as null:
   * the two sides stay coupled, and a failed upload changes neither.
   */
  method UploadNullPreview(app: App, panel: DatasetUpload.UploadPanel, s: Session, read: ReadOutcome)
    returns (fx: seq<Effect>, answer: Option<Reply<UploadResponse>>)
    requires app.Valid() && s.Valid() && Coupled(app, s)
    requires read.Parsed? ==> WellFormed(read.frame)
    modifies app, panel, s
    ensures app.Valid() && s.Valid() && Coupled(app, s)
    ensures answer.Some? <==> old(panel.file).Some?
    ensures answer.None? ==> app.State() == old(app.State()) && unchanged(s)
    ensures panel.file == old(panel.file)
    ensures panel.meta == if answer.Some? && answer.value.Ok? then Some(answer.value.body) else old(panel.meta)
    ensures answer.Some? ==> (answer.value.Ok? <==> UploadRejection(old(panel.file).value.name, read).None?)
    ensures answer.Some? && answer.value.Ok? ==>
              app.State() == AfterUploaded(old(app.State()), Some(answer.value.body)) && s.df == Some(Prepared(read.frame))
    ensures answer.Some? && answer.value.Error? ==> app.State() == old(app.State()) && unchanged(s)
  {
    var reply: Outcome<UploadResponse> := Failure(None);
    answer := None;
    if panel.file.Some? {
      var r := s.UploadNullPreview(panel.file.value.name, read);
      answer := Some(r);
      reply := Deliver(r);
    }
    fx := app.RequestUpload(panel, reply);
  }

  /**
   * The upload card's Reset: the front end returns to its initial state but
   * the backend is not asked, so its dataset, split and model survive.
   */
  method ResetFrontEnd(app: App, panel: DatasetUpload.UploadPanel, s: Session) returns (fx: seq<Effect>)
    requires app.Valid() && s.Valid() && Coupled(app, s)
    modifies app, panel
    ensures app.Valid() && Coupled(app, s)
    ensures app.State() == Initial && unchanged(s)
    ensures panel.file.None? && panel.meta.None?
  {
    fx := app.RequestReset(panel);
  }

  /**
   * Preprocess: when the card is enabled the backend always has a dataset
   * and always accepts the scaler name, so it never answers with either
   * 400; a success clears the split on both sides.
   */
  method Preprocess(app: App, s: Session, button: Preprocessing.Button, scaling: ScaleOutcome)
    returns (fx: seq<Effect>, answer: Option<Reply<PreprocessResponse>>)
    requires app.Valid() && s.Valid() && Coupled(app, s)
    modifies app, s
    ensures app.Valid() && s.Valid() && Coupled(app, s)
    ensures answer.Some? <==> !PreprocessDisabled(old(app.State()))
    ensures answer.None? ==> app.State() == old(app.State()) && unchanged(s)
    ensures answer.Some? ==>
              answer.value != Error(BadRequest, Some(NoDataset)) && answer.value != Error(BadRequest, Some(BadMethod))
    ensures answer.Some? && answer.value.Error? ==> app.State() == old(app.State()) && unchanged(s)
    ensures answer.Some? && answer.value.Ok? ==> app.State() == AfterApplied(old(app.State()))
    ensures answer.Some? && old(s.df).Some? && old(s.df).value.columns != [] &&
            ScaledColumns(old(s.df).value.columns) != [] && scaling.Scaled? ==>
              answer.value.Ok? && s.xTrain.None? && s.model.None?
  {
    var reply: Outcome<PreprocessResponse> := Failure(None);
    answer := None;
    if !PreprocessDisabled(app.State()) {
      SentScalersAccepted(button);
      var r := s.Preprocess(Preprocessing.MethodOf(button), scaling);
      answer := Some(r);
      reply := Deliver(r);
    }
    fx := app.RequestPreprocess(button, reply);
  }

  /**
   * Split: when the card is enabled the backend always has a dataset; a
   * success leaves both sides with a split.
   */
  method Split(app: App, s: Session, button: TrainTestSplit.Button, partition: SplitOutcome)
    returns (fx: seq<Effect>, answer: Option<Reply<SplitResponse>>)
    requires app.Valid() && s.Valid() && Coupled(app, s)
    modifies app, s
    ensures app.Valid() && s.Valid() && Coupled(app, s)
    ensures answer.Some? <==> !SplitDisabled(old(app.State()))
    ensures answer.None? ==> app.State() == old(app.State()) && unchanged(s)
    ensures answer.Some? ==> answer.value != Error(BadRequest, Some(NoDataset))
    ensures answer.Some? ==>
              (answer.value.Ok? <==> CompleteRows(old(s.df).value) >= 2 && old(s.df).value.columns != [] && partition.Partitioned?)
    ensures answer.Some? && answer.value.Ok? ==>
              app.State() == AfterSplit(old(app.State())) && s.xTrain.Some? && s.df == old(s.df)
    ensures answer.Some? && answer.value.Error? ==> app.State() == old(app.State()) && unchanged(s)
  {
    var reply: Outcome<SplitResponse> := Failure(None);
    answer := None;
    if !SplitDisabled(app.State()) {
      GatesUnderConsistency(app.State());
      var r := s.Split(TrainTestSplit.RatioOf(button), partition);
      answer := Some(r);
      reply := Deliver(r);
    }
    fx := app.RequestSplit(button, reply);
  }

  /**
   * Train: when the card is enabled the backend always has a dataset and a
   * split and accepts the model name, so only the fit or the evaluation
   * can fail; a success leaves results on the front end and the model
   * on the backend.
   */
  method Train(app: App, s: Session, card: ModelSelection.Card, fit: FitOutcome)
    returns (fx: seq<Effect>, answer: Option<Reply<TrainResponse>>)
    requires app.Valid() && s.Valid() && Coupled(app, s)
    modifies app, s
    ensures app.Valid() && s.Valid() && Coupled(app, s)
    ensures answer.Some? <==> !TrainDisabled(old(app.State()))
    ensures answer.None? ==> app.State() == old(app.State()) && unchanged(s)
    ensures answer.Some? ==> (answer.value.Ok? <==> fit.Fitted?)
    ensures answer.Some? && answer.value.Error? ==>
              answer.value.status == ServerError && app.State() == old(app.State()) && unchanged(s)
    ensures answer.Some? && answer.value.Ok? ==>
              app.State() == AfterResults(old(app.State()), answer.value.body) && s.model.Some?
    ensures s.df == old(s.df)
  {
    var reply: Outcome<TrainResponse> := Failure(None);
    answer := None;
    if !TrainDisabled(app.State()) {
      SentModelsAccepted(card);
      var r := s.Train(ModelSelection.ModelOf(card), fit);
      answer := Some(r);
      reply := Deliver(r);
    }
    fx := app.RequestTrain(card, reply);
  }

  /** A small well-formed dataset: one numeric feature, a numeric target, three complete rows. */
  function SampleFrame(): (f: Frame)
    ensures WellFormed(f) && |f.columns| == 2
  {
    Frame([Column("a", Numeric, [false, false, false], []), Column("target", Numeric, [false, false, false], [])], 3)
  }

  /** What the backend makes of the sample: accepted as a CSV, kept as is, one feature to scale. */
  lemma SampleFrameAccepted()
    ensures UploadRejection("titanic.CSV", Parsed(SampleFrame())).None?
    ensures !PreviewHasMissing(SampleFrame())
    ensures Prepared(SampleFrame()) == SampleFrame()
    ensures CompleteRows(SampleFrame()) == 3
    ensures ScaledColumns(SampleFrame().columns) == ["a"]
  {
    var f := SampleFrame();
    CsvSuffix("titanic", ".CSV");
    assert "titanic" + ".CSV" == "titanic.CSV";
    assert Kept(f.columns) == f.columns;
    NoMissingKeepsAllRows(f.columns, 3);
    assert NumericNames(f.columns) == ["a", "target"];
  }

  /**
   * An end-to-end run: training before anything is refused locally; an upload; a split straight after it; training;
   * then a preprocess that clears the results and the split on both sides
   * while the dataset stays.
   */
  method SkipPreprocessingScenario()
  {
    var app := new App();
    var panel := new DatasetUpload.UploadPanel();
    var s := new Session();
    StartCoupled(app, s);

    var fx, trainAnswer := Train(app, s, ModelSelection.TreeCard, EvaluationRaised);
    assert trainAnswer.None? && app.State() == Initial;

    panel.Choose(Some(FileRef("titanic.CSV")));
    SampleFrameAccepted();
    var uploadAnswer;
    fx, uploadAnswer := Upload(app, panel, s, Parsed(SampleFrame()));
    assert uploadAnswer.Some? && uploadAnswer.value.Ok?;
    assert app.uploaded.Some? && !app.preprocessed && !app.splitDone && app.results.None?;
    var uploadedMeta := app.uploaded;

    var splitAnswer;
    fx, splitAnswer := Split(app, s, TrainTestSplit.Train80, Partitioned(2, 1));
    assert splitAnswer.Some? && splitAnswer.value.Ok?;
    assert app.splitDone && !app.preprocessed;

    var trainAnswer2;
    fx, trainAnswer2 := Train(app, s, ModelSelection.LogisticCard, Fitted(Metrics(0.87, "{}"), None));
    assert app.results.Some? && s.model.Some?;

    var preprocessAnswer;
    fx, preprocessAnswer := Preprocess(app, s, Preprocessing.Standardize, Scaled);
    assert app.results.None? && !app.splitDone && app.uploaded == uploadedMeta;
    assert s.xTrain.None? && s.model.None?;
  }

  /**
   * The desync an upload's failed preview causes: from any coupled state
   * that shows a split, uploading the Cabin frame clears the backend's
   * split while the front end still shows it, and the model card, still
   * open, meets "Split the dataset first".
   */
  method PreviewDesync(app: App, panel: DatasetUpload.UploadPanel, s: Session)
    returns (answer: Option<Reply<UploadResponse>>, trainReply: Reply<TrainResponse>)
    requires app.Valid() && s.Valid() && Coupled(app, s) && app.splitDone
    requires panel.file == Some(FileRef("train.csv"))
    modifies app, panel, s
    ensures answer == Some(Error(ServerError, None))
    ensures app.splitDone && !TrainDisabled(app.State()) && s.xTrain.None? && !Coupled(app, s)
    ensures trainReply == Error(BadRequest, Some(NoSplit))
  {
    PreviewRefusedAfterStore();
    var fx;
    fx, answer := Upload(app, panel, s, Parsed(CabinFrame()));
    trainReply := s.Train(ModelSelection.ModelOf(ModelSelection.TreeCard), EvaluationRaised);
  }
}
