/**
 * The front end's pipeline controller, `App`: four state cells, the gates it
 * passes to its children as `disabled`, and the completion callbacks that
 * record a finished stage and clear every later one.
 */
module Controller {
  import opened Wrappers
  import opened Api
  import opened Ui
  import Preprocessing
  import TrainTestSplit
  import ModelSelection
  import DatasetUpload

  /** The four state cells of `App`, as one value. */
  datatype Flags = Flags(
    uploaded: Option<UploadResponse>,
    preprocessed: bool,
    splitDone: bool,
    results: Option<TrainResponse>)

  /** The cells' initial values. */
  const Initial := Flags(None, false, false, None)

  // ---------------------------------------------------------------- gates

  /** `disabled={!uploaded}` on the preprocessing card. */
  predicate PreprocessDisabled(s: Flags) {
    s.uploaded.None?
  }

  /** `disabled={!preprocessed && !uploaded}` on the split card. */
  predicate SplitDisabled(s: Flags) {
    !s.preprocessed && s.uploaded.None?
  }

  /** `disabled={!splitDone}` on the model card. */
  predicate TrainDisabled(s: Flags) {
    !s.splitDone
  }

  // ---------------------------------------------------------------- completion callbacks

  /** `onUploaded(res)`: record the response (or null) and clear every other cell. */
  function AfterUploaded(s: Flags, res: Option<UploadResponse>): Flags {
    Flags(res, false, false, None)
  }

  /** `onApplied()`: preprocessing done; split and results cleared. */
  function AfterApplied(s: Flags): Flags {
    s.(preprocessed := true, splitDone := false, results := None)
  }

  /** `onSplit()`: split done; results cleared. */
  function AfterSplit(s: Flags): Flags {
    s.(splitDone := true, results := None)
  }

  /** `setResults(r)`: results recorded; nothing else touched. */
  function AfterResults(s: Flags, r: TrainResponse): Flags {
    s.(results := Some(r))
  }

  /** The state after a child invokes callback `cb`. */
  function Dispatch(s: Flags, cb: Callback): Flags {
    match cb
    case OnUploaded(res) => AfterUploaded(s, res)
    case OnApplied => AfterApplied(s)
    case OnSplit => AfterSplit(s)
    case SetResults(r) => AfterResults(s, r)
  }

  /** The callback's own card gate is open (the upload card has none). */
  predicate Permitted(s: Flags, cb: Callback) {
    match cb
    case OnUploaded(_) => true
    case OnApplied => !PreprocessDisabled(s)
    case OnSplit => !SplitDisabled(s)
    case SetResults(_) => !TrainDisabled(s)
  }

  /**
   * What every gated sequence of completions keeps: preprocessing and the
   * split only with a dataset, results only with a split. Preprocessing is
   * deliberately not required for a split.
   */
  ghost predicate Consistent(s: Flags) {
    && (s.preprocessed ==> s.uploaded.Some?)
    && (s.splitDone ==> s.uploaded.Some?)
    && (s.results.Some? ==> s.splitDone)
  }

  // ---------------------------------------------------------------- properties

  /** The initial state is consistent and every card but upload is closed. */
  lemma InitialClosed()
    ensures Consistent(Initial)
    ensures PreprocessDisabled(Initial) && SplitDisabled(Initial) && TrainDisabled(Initial)
  {
  }

  /** A completion whose gate was open keeps the state consistent. */
  lemma PermittedKeepsConsistent(s: Flags, cb: Callback)
    requires Consistent(s) && Permitted(s, cb)
    ensures Consistent(Dispatch(s, cb))
  {
  }

  /**
   * In a consistent state the permissive split gate opens exactly when the
   * preprocessing gate does (its `preprocessed` disjunct adds nothing), and
   * an open training gate implies both are open.
   */
  lemma GatesUnderConsistency(s: Flags)
    requires Consistent(s)
    ensures SplitDisabled(s) <==> PreprocessDisabled(s)
    ensures !TrainDisabled(s) ==> !SplitDisabled(s) && !PreprocessDisabled(s)
  {
  }

  /** Re-uploading the same response changes nothing more, whatever came before. */
  lemma UploadIdempotent(s: Flags, res: Option<UploadResponse>)
    ensures Dispatch(Dispatch(s, OnUploaded(res)), OnUploaded(res)) == Dispatch(s, OnUploaded(res))
  {
  }

  /** An upload (or the null reset) leaves no trace of the earlier state. */
  lemma UploadForgetsHistory(s: Flags, t: Flags, res: Option<UploadResponse>)
    ensures Dispatch(s, OnUploaded(res)) == Dispatch(t, OnUploaded(res))
    ensures Dispatch(s, OnUploaded(None)) == Initial
  {
  }

  /** The pipeline stages, in order. */
  datatype Stage = UploadStage | PreprocessStage | SplitStage | TrainStage

  function Rank(st: Stage): nat {
    match st
    case UploadStage => 0
    case PreprocessStage => 1
    case SplitStage => 2
    case TrainStage => 3
  }

  /** Whether the state records stage `st` as done. */
  predicate Done(s: Flags, st: Stage) {
    match st
    case UploadStage => s.uploaded.Some?
    case PreprocessStage => s.preprocessed
    case SplitStage => s.splitDone
    case TrainStage => s.results.Some?
  }

  /** The stage a callback reports as finished. */
  function StageOf(cb: Callback): Stage {
    match cb
    case OnUploaded(_) => UploadStage
    case OnApplied => PreprocessStage
    case OnSplit => SplitStage
    case SetResults(_) => TrainStage
  }

  /**
   * The invalidation rule: a completion marks its own stage done (the null
   * upload marks nothing), marks every later stage not done, and leaves the
   * cell of every earlier stage as it was.
   */
  lemma InvalidationRule(s: Flags, cb: Callback, st: Stage)
    ensures var t := Dispatch(s, cb);
      && (cb != OnUploaded(None) ==> Done(t, StageOf(cb)))
      && (cb == OnUploaded(None) ==> !Done(t, st))
      && (Rank(StageOf(cb)) < Rank(st) ==> !Done(t, st))
      && (Rank(st) < Rank(StageOf(cb)) ==>
            t.uploaded == s.uploaded
            && (st != UploadStage ==> t.preprocessed == s.preprocessed)
            && (st == SplitStage ==> t.splitDone == s.splitDone))
  {
  }

  /**
   * Preprocessing may be skipped: upload then split reaches a consistent
   * state with the split done and preprocessing not done, and training is
   * then open.
   */
  lemma SplitWithoutPreprocessing(res: UploadResponse)
    ensures var s := Dispatch(Initial, OnUploaded(Some(res)));
      && !SplitDisabled(s)
      && var t := Dispatch(s, OnSplit);
      && Consistent(t) && t.splitDone && !t.preprocessed && !TrainDisabled(t)
  {
  }

  // ---------------------------------------------------------------- the component

  class App {
    var uploaded: Option<UploadResponse>
    var preprocessed: bool
    var splitDone: bool
    var results: Option<TrainResponse>

    function State(): Flags
      reads this
    {
      Flags(uploaded, preprocessed, splitDone, results)
    }

    ghost predicate Valid()
      reads this
    {
      Consistent(State())
    }

    constructor ()
      ensures State() == Initial && Valid()
    {
      uploaded, preprocessed, splitDone, results := None, false, false, None;
    }

    /** Runs the callback a child invoked (App.jsx passes these as closures over its setters). */
    method Invoke(cb: Callback)
      modifies this
      ensures State() == Dispatch(old(State()), cb)
    {
      match cb
      case OnUploaded(res) =>
        uploaded := res;
        preprocessed := false;
        splitDone := false;
        results := None;
      case OnApplied =>
        preprocessed := true;
        splitDone := false;
        results := None;
      case OnSplit =>
        splitDone := true;
        results := None;
      case SetResults(r) =>
        results := Some(r);
    }

    /** Runs the callbacks an action reported (each action reports at most one). */
    method InvokeAll(calls: seq<Callback>)
      requires |calls| <= 1
      modifies this
      ensures State() == if calls == [] then old(State()) else Dispatch(old(State()), calls[0])
    {
      if calls != [] {
        Invoke(calls[0]);
      }
    }

    /** The Upload button of the upload card. */
    method RequestUpload(panel: DatasetUpload.UploadPanel, reply: Outcome<UploadResponse>) returns (fx: seq<Effect>)
      requires Valid()
      modifies this, panel
      ensures Valid()
      ensures old(panel.file).Some? && reply.Success? ==>
                State() == AfterUploaded(old(State()), Some(reply.data))
      ensures old(panel.file).None? || reply.Failure? ==> State() == old(State())
      ensures Posts(fx) == if old(panel.file).None? then [] else [PostUpload(old(panel.file).value)]
      ensures panel.file == old(panel.file)
      ensures panel.meta == if old(panel.file).Some? && reply.Success? then Some(reply.data) else old(panel.meta)
    {
      fx := panel.Upload(reply);
      InvokeAll(Calls(fx));
    }

    /** The Reset button of the upload card: the null upload, with no request to the backend. */
    method RequestReset(panel: DatasetUpload.UploadPanel) returns (fx: seq<Effect>)
      requires Valid()
      modifies this, panel
      ensures Valid()
      ensures State() == Initial
      ensures panel.file.None? && panel.meta.None?
      ensures Posts(fx) == []
    {
      fx := panel.Reset();
      InvokeAll(Calls(fx));
    }

    /** A button of the preprocessing card, gated by `!uploaded`. */
    method RequestPreprocess(button: Preprocessing.Button, reply: Outcome<PreprocessResponse>) returns (fx: seq<Effect>)
      requires Valid()
      modifies this
      ensures Valid()
      ensures PreprocessDisabled(old(State())) ==> fx == [Alert(Preprocessing.GateMessage)]
      ensures !PreprocessDisabled(old(State())) && reply.Success? ==> State() == AfterApplied(old(State()))
      ensures PreprocessDisabled(old(State())) || reply.Failure? ==> State() == old(State())
    {
      fx := Preprocessing.Apply(PreprocessDisabled(State()), button, reply);
      InvokeAll(Calls(fx));
    }

    /** A button of the split card, gated by `!preprocessed && !uploaded`. */
    method RequestSplit(button: TrainTestSplit.Button, reply: Outcome<SplitResponse>) returns (fx: seq<Effect>)
      requires Valid()
      modifies this
      ensures Valid()
      ensures SplitDisabled(old(State())) ==> fx == [Alert(TrainTestSplit.GateMessage)]
      ensures !SplitDisabled(old(State())) && reply.Success? ==> State() == AfterSplit(old(State()))
      ensures SplitDisabled(old(State())) || reply.Failure? ==> State() == old(State())
    {
      fx := TrainTestSplit.DoSplit(SplitDisabled(State()), button, reply);
      InvokeAll(Calls(fx));
    }

    /** A card of the model selection, gated by `!splitDone`. */
    method RequestTrain(card: ModelSelection.Card, reply: Outcome<TrainResponse>) returns (fx: seq<Effect>)
      requires Valid()
      modifies this
      ensures Valid()
      ensures TrainDisabled(old(State())) ==> fx == [Alert(ModelSelection.GateMessage)]
      ensures !TrainDisabled(old(State())) && reply.Success? ==> State() == AfterResults(old(State()), reply.data)
      ensures TrainDisabled(old(State())) || reply.Failure? ==> State() == old(State())
    {
      fx := ModelSelection.Train(TrainDisabled(State()), card, reply);
      InvokeAll(Calls(fx));
    }
  }
}
