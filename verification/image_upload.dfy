/** The stand-alone image uploader (frontend/app/components/ImageUpload.tsx):
    the user chooses a file, presses Upload, and the component shows either
    the uploaded image or an error. The POST itself is a parameter: the value
    `res.json()` produced, or the fact that the request or the parsing threw. */
module ImageUpload {
  import opened JsValue

  /** The chosen file; only its name is shown. */
  datatype File = File(name: string)

  datatype UploaderState = UploaderState(file: Option<File>, imageUrl: Value, loading: bool, error: Value)

  /** How the request ended: it threw, or the reply parsed to `data`. */
  datatype UploadOutcome = Threw | Replied(data: Value)

  const Initial := UploaderState(None, Str(""), false, Str(""))
  const UploadFailed := "Upload failed"

  /** handleFileChange: the first chosen file, or none. */
  function ChooseFile(s: UploaderState, chosen: Option<File>): (r: UploaderState)
    ensures r.file == chosen && r.imageUrl == Str("") && r.error == Str("")
    ensures r.loading == s.loading
  {
    s.(file := chosen, imageUrl := Str(""), error := Str(""))
  }

  /** The synchronous start of handleUpload: nothing without a file; with one,
      loading is switched on and the error cleared. */
  function BeginUpload(s: UploaderState): (r: UploaderState)
    ensures s.file.None? ==> r == s
    ensures s.file.Some? ==> r == s.(loading := true, error := Str(""))
  {
    if s.file.None? then s else s.(loading := true, error := Str(""))
  }

  /** The end of handleUpload. A truthy `url` in the reply becomes the image;
      any other reply sets the error to its `error` field, or to the default
      message when that is falsy. Reading a field of null or undefined throws,
      which the catch turns into the default message, as does a request that
      threw. Loading ends in every case. */
  function FinishUpload(s: UploaderState, outcome: UploadOutcome): (r: UploaderState)
    ensures !r.loading && r.file == s.file
    ensures outcome.Threw? ==> r == s.(loading := false, error := Str(UploadFailed))
    ensures outcome.Replied? && (outcome.data.Null? || outcome.data.Undefined?) ==>
      r == s.(loading := false, error := Str(UploadFailed))
    ensures outcome.Replied? && Truthy(Get(outcome.data, "url")) ==>
      r == s.(loading := false, imageUrl := Get(outcome.data, "url"))
    ensures outcome.Replied? && !outcome.data.Null? && !outcome.data.Undefined? && !Truthy(Get(outcome.data, "url")) ==>
      r.imageUrl == s.imageUrl &&
      r.error == (if Truthy(Get(outcome.data, "error")) then Get(outcome.data, "error") else Str(UploadFailed))
  {
    match outcome
    case Threw => s.(loading := false, error := Str(UploadFailed))
    case Replied(data) =>
      if data.Null? || data.Undefined? then s.(loading := false, error := Str(UploadFailed))
      else
        var url := Get(data, "url");
        if Truthy(url) then s.(loading := false, imageUrl := url)
        else
          var message := Get(data, "error");
          s.(loading := false, error := if Truthy(message) then message else Str(UploadFailed))
  }

  /** The upload button's `disabled`. */
  predicate Disabled(s: UploaderState) {
    s.file.None? || s.loading
  }

  /** While an upload is under way the button is disabled, and an upload
      cannot start without a file. */
  lemma AttemptDisablesButton(s: UploaderState)
    ensures Disabled(BeginUpload(s))
    ensures BeginUpload(s).loading <==> s.file.Some? || s.loading
  {
  }

  /** Every attempt ends visibly: loading is off, and either the image shows
      (a truthy url, no error) or an error message shows. */
  lemma AttemptEndsVisibly(s: UploaderState, outcome: UploadOutcome)
    requires s.file.Some?
    ensures var r := FinishUpload(BeginUpload(s), outcome);
      && !r.loading && !Disabled(r)
      && ((Truthy(r.imageUrl) && r.error == Str("")) || Truthy(r.error))
      && (Truthy(r.error) <==> !(outcome.Replied? && !outcome.data.Null? && !outcome.data.Undefined? && Truthy(Get(outcome.data, "url"))))
  {
  }

  /** Choosing a file again after an attempt returns the component to a
      clean slate with that file: the result and the error are gone. */
  lemma ChoosingAgainClears(s: UploaderState, outcome: UploadOutcome, next: Option<File>)
    ensures var r := ChooseFile(FinishUpload(BeginUpload(s), outcome), next);
      r == Initial.(file := next)
  {
  }

  // ---------------------------------------------------------------------------
  // The component

  class Uploader {
    var file: Option<File>
    var imageUrl: Value
    var loading: bool
    var error: Value

    function State(): UploaderState
      reads this
    {
      UploaderState(file, imageUrl, loading, error)
    }

    constructor ()
      ensures State() == Initial
    {
      file, imageUrl, loading, error := None, Str(""), false, Str("");
    }

    /** handleFileChange */
    method HandleFileChange(chosen: Option<File>)
      modifies this
      ensures State() == ChooseFile(old(State()), chosen)
    {
      file := chosen;
      imageUrl := Str("");
      error := Str("");
    }

    /** The part of handleUpload before the request; `started` tells whether
      a request goes out. */
    method StartUpload() returns (started: bool)
      modifies this
      ensures State() == BeginUpload(old(State()))
      ensures started <==> old(file).Some?
    {
      if file.None? {
        return false;
      }
      loading := true;
      error := Str("");
      return true;
    }

    /** The part of handleUpload after the request. */
    method EndUpload(outcome: UploadOutcome)
      modifies this
      ensures State() == FinishUpload(old(State()), outcome)
    {
      match outcome {
        case Threw =>
          error := Str(UploadFailed);
        case Replied(data) =>
          if data.Null? || data.Undefined? {
            error := Str(UploadFailed);
          } else if Truthy(Get(data, "url")) {
            imageUrl := Get(data, "url");
          } else if Truthy(Get(data, "error")) {
            error := Get(data, "error");
          } else {
            error := Str(UploadFailed);
          }
      }
      loading := false;
    }
  }
}
