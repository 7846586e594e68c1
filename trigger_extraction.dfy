/** `information_extractor_handler`: fired when a transcription document is
    created; it validates the document and hands it to the extraction
    service. Nothing it does escapes to the dispatcher. */
module InformationExtractorTrigger {
  import opened Wrappers
  import opened Documents
  import opened TranscriptionModel
  import opened Store
  import opened Oracles
  import opened TranscriptionRepository
  import MedicalInfoExtractor

  /** The error status the wrapper writes for a failure it catches itself. */
  function ErrorWrite(sessionId: string, message: string): Write {
    StatusWrite(sessionId, TranscriptionError, message)
  }

  /** The handler on the store's value, for the `session_id` path parameter
      and the created document, if the event carries one. */
  function HandlerSpec(s: StoreState, caps: Capabilities, param: Option<string>, data: Option<Document>): (r: StoreState)
    ensures r.down == s.down
    ensures !TruthyStr(param) ==> r == s
    ensures data.None? ==> r == s
    ensures TruthyStr(param) && data.Some? && ParseTranscription(data.value).Success? ==>
      r == MedicalInfoExtractor.ProcessSpec(s, caps, ParseTranscription(data.value).value)
    ensures TruthyStr(param) && data.Some? && ParseTranscription(data.value).Failure? ==>
      r == Apply(s, ErrorWrite(param.value, ParseTranscription(data.value).error)).0
  {
    if !TruthyStr(param) || data.None? then s
    else match ParseTranscription(data.value)
      case Failure(e) => Apply(s, ErrorWrite(param.value, e)).0
      case Success(t) => MedicalInfoExtractor.ProcessSpec(s, caps, t)
  }

  /** The only TRANSCRIPTION_ERROR this stage writes comes from a document
      that does not validate: once the service runs, the run ends with its
      own INFORMATION_EXTRACTION_FINISHED or _ERROR status instead. */
  lemma TranscriptionErrorOnlyFromValidation(s: StoreState, caps: Capabilities, param: Option<string>, data: Option<Document>)
    requires TruthyStr(param) && data.Some? && ParseTranscription(data.value).Success?
    requires ParseTranscription(data.value).value.sessionId != ""
    ensures var r := HandlerSpec(s, caps, param, data);
      && |r.journal| > |s.journal|
      && r.journal[|r.journal| - 1].Attempt?
      && forall message :: r.journal[|r.journal| - 1].write != ErrorWrite(param.value, message)
  {
    var t := ParseTranscription(data.value).value;
    MedicalInfoExtractor.ProcessEndsWithStageStatus(s, caps, t);
    var r := HandlerSpec(s, caps, param, data);
    var last := r.journal[|r.journal| - 1];
    forall message | last.write == ErrorWrite(param.value, message)
      ensures false
    {
      var o := MedicalInfoExtractor.ExtractionSteps(s, caps, t).1;
      if o.Pass? {
        StatusWriteInjective(t.sessionId, InformationExtractionFinished, "", param.value, TranscriptionError, message);
      } else {
        StatusWriteInjective(t.sessionId, InformationExtractionError, o.error, param.value, TranscriptionError, message);
      }
    }
  }

  method Handler(store: RecordStore, caps: Capabilities, param: Option<string>, data: Option<Document>)
    modifies store
    ensures store.State() == HandlerSpec(old(store.State()), caps, param, data)
  {
    if !TruthyStr(param) || data.None? {
      return;
    }
    var t := ParseTranscription(data.value);
    if t.Failure? {
      var _ := SetProcessingStatus(store, param.value, TranscriptionError, t.error);
      return;
    }
    MedicalInfoExtractor.Process(store, caps, t.value);
  }
}
