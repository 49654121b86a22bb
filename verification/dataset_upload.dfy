/**
 * The upload card: it owns the chosen file and the last upload response,
 * and reports uploads and resets to its parent through `onUploaded`.
 */
module DatasetUpload {
  import opened Wrappers
  import opened Api
  import opened Ui

  const ChooseMessage := "Choose a CSV/XLSX file"
  const FailedMessage := "Upload failed"

  class UploadPanel {
    var file: Option<FileRef>
    var meta: Option<UploadResponse>

    constructor ()
      ensures file.None? && meta.None?
    {
      file, meta := None, None;
    }

    /** The file input's `onChange`: the first chosen file, or none when the choice is cancelled. */
    method Choose(picked: Option<FileRef>)
      modifies this
      ensures file == picked && meta == old(meta)
    {
      file := picked;
    }

    /**
     * `upload()`: without a file only an alert is shown; otherwise the file
     * is posted, and on success `meta` takes the response and `onUploaded`
     * is called once with it, while on failure only the alert is shown.
     * The Upload button has no gate.
     */
    method Upload(reply: Outcome<UploadResponse>) returns (fx: seq<Effect>)
      modifies this
      ensures file == old(file)
      ensures old(file).None? ==> fx == [Alert(ChooseMessage)] && meta == old(meta)
      ensures old(file).Some? && reply.Success? ==>
                && fx == [Post(PostUpload(old(file).value)), Call(OnUploaded(Some(reply.data)))]
                && meta == Some(reply.data)
      ensures old(file).Some? && reply.Failure? ==>
                && fx == [Post(PostUpload(old(file).value)), Alert(AlertText(reply.detail, FailedMessage))]
                && meta == old(meta)
      ensures Posts(fx) == if old(file).None? then [] else [PostUpload(old(file).value)]
      ensures Calls(fx) == if old(file).Some? && reply.Success? then [OnUploaded(Some(reply.data))] else []
    {
      if file.None? {
        AlertOnly(ChooseMessage);
        return [Alert(ChooseMessage)];
      }
      var request := PostUpload(file.value);
      match reply
      case Success(data) =>
        PostThenCall(request, OnUploaded(Some(data)));
        meta := Some(data);
        fx := [Post(request), Call(OnUploaded(Some(data)))];
      case Failure(detail) =>
        PostThenAlert(request, AlertText(detail, FailedMessage));
        fx := [Post(request), Alert(AlertText(detail, FailedMessage))];
    }

    /** The Reset button: forget the file and the response and report `null` upward; nothing is posted. */
    method Reset() returns (fx: seq<Effect>)
      modifies this
      ensures file.None? && meta.None?
      ensures fx == [Call(OnUploaded(None))]
      ensures Posts(fx) == [] && Calls(fx) == [OnUploaded(None)]
    {
      CallOnly(OnUploaded(None));
      file, meta := None, None;
      fx := [Call(OnUploaded(None))];
    }
  }
}
