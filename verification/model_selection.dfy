/** The model card: two clickable cards, each posting one model name. */
module ModelSelection {
  import opened Api
  import opened Ui

  datatype Card = LogisticCard | TreeCard

  /** The model name a card sends. */
  function ModelOf(c: Card): string {
    match c
    case LogisticCard => "logistic"
    case TreeCard => "tree"
  }

  const GateMessage := "Perform split first"
  const FailedMessage := "Training failed (check backend logs)"

  /**
   * `train(model)`: a closed gate only alerts; otherwise one request is
   * posted, then either `setResults` exactly once with the response data,
   * or the failure alert and no callback.
   */
  method Train(disabled: bool, card: Card, reply: Outcome<TrainResponse>) returns (fx: seq<Effect>)
    ensures disabled ==> fx == [Alert(GateMessage)]
    ensures !disabled && reply.Success? ==> fx == [Post(PostTrain(ModelOf(card))), Call(SetResults(reply.data))]
    ensures !disabled && reply.Failure? ==>
              fx == [Post(PostTrain(ModelOf(card))), Alert(AlertText(reply.detail, FailedMessage))]
    ensures Posts(fx) == if disabled then [] else [PostTrain(ModelOf(card))]
    ensures Calls(fx) == if !disabled && reply.Success? then [SetResults(reply.data)] else []
    ensures forall r :: r in Posts(fx) ==> r == PostTrain("logistic") || r == PostTrain("tree")
  {
    var request := PostTrain(ModelOf(card));
    if disabled {
      AlertOnly(GateMessage);
      return [Alert(GateMessage)];
    }
    match reply
    case Success(data) =>
      PostThenCall(request, SetResults(data));
      fx := [Post(request), Call(SetResults(data))];
    case Failure(detail) =>
      PostThenAlert(request, AlertText(detail, FailedMessage));
      fx := [Post(request), Alert(AlertText(detail, FailedMessage))];
  }
}
