/** The split card: two buttons, each posting one test fraction. */
module TrainTestSplit {
  import opened Api
  import opened Ui

  /** "70% Train / 30% Test" and "80% Train / 20% Test". */
  datatype Button = Train70 | Train80

  /** The `test_size` a button sends. */
  function RatioOf(b: Button): real {
    match b
    case Train70 => 0.3
    case Train80 => 0.2
  }

  const GateMessage := "Preprocess or upload dataset first"
  const DoneMessage := "Split done"
  const FailedMessage := "Split failed"

  /**
   * `doSplit(ratio)`: a closed gate only alerts; otherwise one request is
   * posted, then either the success alert and `onSplit` exactly once, or
   * the failure alert and no callback.
   */
  method DoSplit(disabled: bool, button: Button, reply: Outcome<SplitResponse>) returns (fx: seq<Effect>)
    ensures disabled ==> fx == [Alert(GateMessage)]
    ensures !disabled && reply.Success? ==>
              fx == [Post(PostSplit(RatioOf(button))), Alert(DoneMessage), Call(OnSplit)]
    ensures !disabled && reply.Failure? ==>
              fx == [Post(PostSplit(RatioOf(button))), Alert(AlertText(reply.detail, FailedMessage))]
    ensures Posts(fx) == if disabled then [] else [PostSplit(RatioOf(button))]
    ensures Calls(fx) == if !disabled && reply.Success? then [OnSplit] else []
    ensures forall r :: r in Posts(fx) ==> r == PostSplit(0.3) || r == PostSplit(0.2)
  {
    var request := PostSplit(RatioOf(button));
    if disabled {
      AlertOnly(GateMessage);
      return [Alert(GateMessage)];
    }
    match reply
    case Success(_) =>
      PostAlertCall(request, DoneMessage, OnSplit);
      fx := [Post(request), Alert(DoneMessage), Call(OnSplit)];
    case Failure(detail) =>
      PostThenAlert(request, AlertText(detail, FailedMessage));
      fx := [Post(request), Alert(AlertText(detail, FailedMessage))];
  }
}
