/**
 * The request and response shapes exchanged between the browser front end and
 * the single-session backend, as plain values shared by both sides.
 */
module Api {
  import opened Wrappers

  /** The two scalers the backend accepts. */
  datatype ScaleMethod = Standard | MinMax

  /** The two classifiers the backend can fit. */
  datatype ModelKind = Logistic | Tree

  /** Body of a successful `/upload`: it describes the raw frame as read. */
  datatype UploadResponse = UploadResponse(
    filename: string,
    rows: nat,
    cols: nat,
    columns: seq<string>,
    previewRows: nat)

  /** Body of a successful `/preprocess` (both are HTTP 200). */
  datatype PreprocessResponse =
    | PreprocessingApplied(scaledColumns: seq<string>)
    | NoNumericColumns

  /** Body of a successful `/split`. */
  datatype SplitResponse = SplitDone(trainRows: nat, testRows: nat)

  /** Accuracy and classification report; the numbers themselves are opaque. */
  datatype Metrics = Metrics(accuracy: real, report: string)

  /** Body of a successful `/train`: metrics and the optional confusion-matrix image. */
  datatype TrainResponse = ModelTrained(metrics: Metrics, confusion: Option<string>)

  /** Body of `/reset`. */
  datatype ResetResponse = ResetDone

  const BadRequest: nat := 400
  const ServerError: nat := 500

  /**
   * What the backend answers: a body, or an HTTP error. An `HTTPException`
   * carries a JSON `detail`; an exception nobody catches becomes a bare 500
   * whose body has no `detail`.
   */
  datatype Reply<T> = Ok(body: T) | Error(status: nat, detail: Option<string>)

  /**
   * What the front end observes of one remote call: the response data, or a
   * failure with the server's `detail` when the response carried one
   * (a network failure has none).
   */
  datatype Outcome<T> = Success(data: T) | Failure(detail: Option<string>)

  /** The outcome the front end sees when the transport delivers the reply unchanged. */
  function Deliver<T>(r: Reply<T>): (o: Outcome<T>)
    ensures o.Success? <==> r.Ok?
    ensures r.Ok? ==> o.data == r.body
    ensures r.Error? ==> o.detail == r.detail
  {
    match r
    case Ok(b) => Success(b)
    case Error(_, d) => Failure(d)
  }
}
