/**
 * What a front-end action does that can be observed: the remote request it
 * posts, the alert it shows, and the parent callback it invokes, in order.
 */
module Ui {
  import opened Wrappers
  import opened Api

  /** The file the user picked in the file input. */
  datatype FileRef = FileRef(name: string)

  /** The body of each remote request the front end can make. */
  datatype Request =
    | PostUpload(file: FileRef)
    | PostPreprocess(scaler: string)
    | PostSplit(testSize: real)
    | PostTrain(model: string)

  /** The callbacks `App` hands to its children. */
  datatype Callback =
    | OnUploaded(meta: Option<UploadResponse>)
    | OnApplied
    | OnSplit
    | SetResults(data: TrainResponse)

  datatype Effect = Post(request: Request) | Alert(text: string) | Call(callback: Callback)

  /**
   * `err?.response?.data?.detail || fallback`: the server's detail when it
   * is present and non-empty (an empty string is falsy), else the fallback.
   */
  function AlertText(detail: Option<string>, fallback: string): (text: string)
    ensures detail.Some? && detail.value != "" ==> text == detail.value
    ensures detail.None? || detail.value == "" ==> text == fallback
  {
    match detail
    case Some(d) => if d != "" then d else fallback
    case None => fallback
  }

  /** The requests posted, in order. */
  function Posts(fx: seq<Effect>): (rs: seq<Request>)
    ensures |rs| <= |fx|
  {
    if fx == [] then []
    else (if fx[0].Post? then [fx[0].request] else []) + Posts(fx[1..])
  }

  /** The callbacks invoked, in order. */
  function Calls(fx: seq<Effect>): (cs: seq<Callback>)
    ensures |cs| <= |fx|
  {
    if fx == [] then []
    else (if fx[0].Call? then [fx[0].callback] else []) + Calls(fx[1..])
  }

  /** A gate or a missing file stops the action with one alert: nothing posted, nothing invoked. */
  lemma AlertOnly(a: string)
    ensures Posts([Alert(a)]) == [] && Calls([Alert(a)]) == []
  {
  }

  /** A callback alone posts nothing and invokes that callback. */
  lemma CallOnly(c: Callback)
    ensures Posts([Call(c)]) == [] && Calls([Call(c)]) == [c]
  {
  }

  /** A request answered with a failure: one post, then an alert, and no callback. */
  lemma PostThenAlert(r: Request, a: string)
    ensures Posts([Post(r), Alert(a)]) == [r] && Calls([Post(r), Alert(a)]) == []
  {
    assert [Post(r), Alert(a)][1..] == [Alert(a)];
  }

  /** A request answered with success and reported without an alert. */
  lemma PostThenCall(r: Request, c: Callback)
    ensures Posts([Post(r), Call(c)]) == [r] && Calls([Post(r), Call(c)]) == [c]
  {
    assert [Post(r), Call(c)][1..] == [Call(c)];
  }

  /** A request answered with success, announced by an alert, then reported. */
  lemma PostAlertCall(r: Request, a: string, c: Callback)
    ensures Posts([Post(r), Alert(a), Call(c)]) == [r] && Calls([Post(r), Alert(a), Call(c)]) == [c]
  {
    assert [Alert(a), Call(c)][1..] == [Call(c)];
    assert Posts([Alert(a), Call(c)]) == [] && Calls([Alert(a), Call(c)]) == [c];
    assert [Post(r), Alert(a), Call(c)][1..] == [Alert(a), Call(c)];
  }
}
