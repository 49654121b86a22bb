/** The preprocessing card: two buttons, each posting one scaler name. */
module Preprocessing {
  import opened Api
  import opened Ui

  datatype Button = Standardize | Normalize

  /** The scaler name a button sends. */
  function MethodOf(b: Button): string {
    match b
    case Standardize => "standard"
    case Normalize => "minmax"
  }

  const GateMessage := "Upload dataset first"
  const AppliedMessage := "Preprocessing applied"
  const FailedMessage := "Preprocess failed"

  /**
   * `apply(method)`: a closed gate only alerts; otherwise one request is
   * posted, then either the success alert and `onApplied` exactly once, or
   * the failure alert and no callback. `reply` is what the server answers.
   */
  method Apply(disabled: bool, button: Button, reply: Outcome<PreprocessResponse>) returns (fx: seq<Effect>)
    ensures disabled ==> fx == [Alert(GateMessage)]
    ensures !disabled && reply.Success? ==>
              fx == [Post(PostPreprocess(MethodOf(button))), Alert(AppliedMessage), Call(OnApplied)]
    ensures !disabled && reply.Failure? ==>
              fx == [Post(PostPreprocess(MethodOf(button))), Alert(AlertText(reply.detail, FailedMessage))]
    ensures Posts(fx) == if disabled then [] else [PostPreprocess(MethodOf(button))]
    ensures Calls(fx) == if !disabled && reply.Success? then [OnApplied] else []
    ensures forall r :: r in Posts(fx) ==> r == PostPreprocess("standard") || r == PostPreprocess("minmax")
  {
    var request := PostPreprocess(MethodOf(button));
    if disabled {
      AlertOnly(GateMessage);
      return [Alert(GateMessage)];
    }
    match reply
    case Success(_) =>
      PostAlertCall(request, AppliedMessage, OnApplied);
      fx := [Post(request), Alert(AppliedMessage), Call(OnApplied)];
    case Failure(detail) =>
      PostThenAlert(request, AlertText(detail, FailedMessage));
      fx := [Post(request), Alert(AlertText(detail, FailedMessage))];
  }
}
