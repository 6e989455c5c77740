/** The main page: the selected image, the busy flag and the result, and the
    handlers that step them. The FileReader `onload` callback is modelled as a
    separate step, taken later with the relay's reply. */
module IndexPage {
  import opened Common
  import opened JsonValue
  import opened UploadZone

  datatype Toast = ErrorToast(message: string) | SuccessToast(message: string)

  /** What the relay answered: `response.ok` and the parsed JSON body. */
  datatype RelayReply = RelayReply(ok: bool, body: Json)

  const NoImageToast := "Please upload an image first"
  const DoneToast := "Analysis complete!"
  const DefaultFailure := "Analysis failed"
  /** The message of the TypeError that reading `.error` off `null` raises
      (as V8 words it). */
  const NullReadError := "Cannot read properties of null (reading 'error')"

  /** The message a failed reply ends with: `errorData.error || 'Analysis
      failed'`, or, when the body is `null`, the TypeError thrown by reading
      `errorData.error`. A body that is not an object has no `error` field. */
  function FailureMessage(body: Json): (m: string)
    ensures m != ""
    ensures body == JNull ==> m == NullReadError
    ensures (Field(body, "error").Some? && Field(body, "error").value.JString?
             && Field(body, "error").value.s != "") ==> m == Field(body, "error").value.s
    ensures body != JNull && (Field(body, "error").None? || !IsTruthy(Field(body, "error").value))
      ==> m == DefaultFailure
  {
    if body == JNull then NullReadError
    else
      match Field(body, "error")
      case Some(JString(e)) => if e != "" then e else DefaultFailure
      case _ => DefaultFailure
  }

  /** The analyze button: hidden, or shown with its disabled flag and its label. */
  datatype Button = Hidden | Shown(disabled: bool, caption: string)

  class Page {
    var selectedImage: Option<File>
    var isAnalyzing: bool
    var result: Option<Json>
    var toasts: seq<Toast>

    constructor ()
      ensures selectedImage == None && !isAnalyzing && result == None && toasts == []
    {
      selectedImage := None;
      isAnalyzing := false;
      result := None;
      toasts := [];
    }

    /** `handleImageSelect`. */
    method HandleImageSelect(file: File)
      modifies this
      ensures selectedImage == Some(file) && result == None
      ensures isAnalyzing == old(isAnalyzing) && toasts == old(toasts)
    {
      selectedImage := Some(file);
      result := None;
    }

    /** `handleClear`. */
    method HandleClear()
      modifies this
      ensures selectedImage == None && result == None
      ensures isAnalyzing == old(isAnalyzing) && toasts == old(toasts)
    {
      selectedImage := None;
      result := None;
    }

    /** The synchronous part of `handleAnalyze`, as written. Without an image
        it only shows a toast. With one it raises the busy flag, clears the
        result and starts reading the file (`reading` is the file handed to
        the FileReader); the `try` contains no `await`, so its `finally`
        lowers the flag again before the handler returns. */
    method HandleAnalyze() returns (reading: Option<File>)
      modifies this
      ensures reading == old(selectedImage) && selectedImage == old(selectedImage)
      ensures old(selectedImage).None? ==>
        toasts == old(toasts) + [ErrorToast(NoImageToast)]
        && isAnalyzing == old(isAnalyzing) && result == old(result)
      ensures old(selectedImage).Some? ==>
        toasts == old(toasts) && result == None && !isAnalyzing
    {
      if selectedImage.None? {
        toasts := toasts + [ErrorToast(NoImageToast)];
        return None;
      }
      isAnalyzing := true;
      result := None;
      reading := selectedImage;
      isAnalyzing := false;
    }

    /** The `onload` callback, as written: a failed reply throws inside the
        callback, outside the `try`, so the error is neither caught nor shown;
        `rejection` is the message of the promise it rejects. */
    method OnReadLoad(reply: RelayReply) returns (rejection: Option<string>)
      modifies this
      ensures selectedImage == old(selectedImage) && isAnalyzing == old(isAnalyzing)
      ensures !reply.ok ==>
        rejection == Some(FailureMessage(reply.body))
        && result == old(result) && toasts == old(toasts)
      ensures reply.ok ==>
        rejection == None && result == Some(reply.body)
        && toasts == old(toasts) + [SuccessToast(DoneToast)]
    {
      if !reply.ok {
        return Some(FailureMessage(reply.body));
      }
      result := Some(reply.body);
      toasts := toasts + [SuccessToast(DoneToast)];
      rejection := None;
    }

    /** `handleAnalyze` as evidently intended: the busy flag stays raised
        until the reply settles. */
    method HandleAnalyzeHoldingBusy() returns (reading: Option<File>)
      modifies this
      ensures reading == old(selectedImage) && selectedImage == old(selectedImage)
      ensures old(selectedImage).None? ==>
        toasts == old(toasts) + [ErrorToast(NoImageToast)]
        && isAnalyzing == old(isAnalyzing) && result == old(result)
      ensures old(selectedImage).Some? ==>
        toasts == old(toasts) && result == None && isAnalyzing
    {
      if selectedImage.None? {
        toasts := toasts + [ErrorToast(NoImageToast)];
        return None;
      }
      isAnalyzing := true;
      result := None;
      reading := selectedImage;
    }

    /** The reply as evidently intended: the busy flag is lowered, and a
        failure is shown as an error toast. */
    method OnAnalysisSettled(reply: RelayReply)
      modifies this
      ensures selectedImage == old(selectedImage) && !isAnalyzing
      ensures !reply.ok ==>
        result == old(result) && toasts == old(toasts) + [ErrorToast(FailureMessage(reply.body))]
      ensures reply.ok ==>
        result == Some(reply.body) && toasts == old(toasts) + [SuccessToast(DoneToast)]
    {
      isAnalyzing := false;
      if reply.ok {
        result := Some(reply.body);
        toasts := toasts + [SuccessToast(DoneToast)];
      } else {
        toasts := toasts + [ErrorToast(FailureMessage(reply.body))];
      }
    }

    /** The result is stored unchecked, so it counts as present only when it
        is truthy: a stored `null`, `false`, `0` or `""` counts as none. */
    predicate HasResult()
      reads this
    {
      result.Some? && IsTruthy(result.value)
    }

    /** The analyze button is rendered exactly when an image is selected and
        the result is falsy, and it is disabled exactly while analyzing. */
    function AnalyzeButton(): (b: Button)
      reads this
      ensures b.Shown? <==> selectedImage.Some? && !(result.Some? && IsTruthy(result.value))
      ensures b.Shown? ==> b.disabled == isAnalyzing
      ensures b.Shown? ==> b.caption == (if isAnalyzing then "Analyzing..." else "Analyze Chart")
    {
      if selectedImage.Some? && !HasResult() then
        Shown(isAnalyzing, if isAnalyzing then "Analyzing..." else "Analyze Chart")
      else Hidden
    }
  }

  /** With an image selected, exactly one of the analyze button and the
      results panel is on the page; without one the panel can still show a
      result, but the button never appears. */
  lemma ButtonOrResults(p: Page)
    ensures p.selectedImage.Some? ==> (p.AnalyzeButton().Shown? <==> !p.HasResult())
    ensures p.selectedImage.None? ==> p.AnalyzeButton() == Hidden
  {
  }

  /** An ok reply whose body is falsy (the model answered `null`, say) is
      stored, yet the enabled button comes back beside the success toast. */
  method FalsyReplyShowsButton(file: File, body: Json) returns (button: Button, toasts: seq<Toast>)
    requires !IsTruthy(body)
    ensures button == Shown(false, "Analyze Chart")
    ensures toasts == [SuccessToast(DoneToast)]
  {
    var page := new Page();
    page.HandleImageSelect(file);
    var _ := page.HandleAnalyze();
    var _ := page.OnReadLoad(RelayReply(true, body));
    button := page.AnalyzeButton();
    toasts := page.toasts;
  }

  /** As written, the button is enabled again as soon as the analysis starts,
      while the file is still being read and the relay not yet asked. */
  method AsWrittenButtonEnabledWhilePending(file: File) returns (button: Button, reading: Option<File>)
    ensures reading == Some(file)
    ensures button == Shown(false, "Analyze Chart")
  {
    var page := new Page();
    page.HandleImageSelect(file);
    reading := page.HandleAnalyze();
    button := page.AnalyzeButton();
  }

  /** As written, a failed analysis leaves no toast behind. */
  method AsWrittenFailureNotShown(file: File, body: Json) returns (toasts: seq<Toast>, rejection: Option<string>)
    ensures toasts == []
    ensures rejection == Some(FailureMessage(body))
  {
    var page := new Page();
    page.HandleImageSelect(file);
    var _ := page.HandleAnalyze();
    rejection := page.OnReadLoad(RelayReply(false, body));
    toasts := page.toasts;
  }

  /** As intended, the button is disabled and reads "Analyzing..." until the
      reply settles, and is enabled again afterwards only if the reply failed. */
  method IntendedButtonDisabledWhilePending(file: File, reply: RelayReply)
    returns (pending: Button, settled: Button)
    ensures pending == Shown(true, "Analyzing...")
    ensures settled == if reply.ok && IsTruthy(reply.body) then Hidden else Shown(false, "Analyze Chart")
  {
    var page := new Page();
    page.HandleImageSelect(file);
    var _ := page.HandleAnalyzeHoldingBusy();
    pending := page.AnalyzeButton();
    page.OnAnalysisSettled(reply);
    settled := page.AnalyzeButton();
  }

  /** As intended, a failed analysis is shown with the relay's message. */
  method IntendedFailureShown(file: File, body: Json) returns (toasts: seq<Toast>)
    ensures toasts == [ErrorToast(FailureMessage(body))]
  {
    var page := new Page();
    page.HandleImageSelect(file);
    var _ := page.HandleAnalyzeHoldingBusy();
    page.OnAnalysisSettled(RelayReply(false, body));
    toasts := page.toasts;
  }
}
