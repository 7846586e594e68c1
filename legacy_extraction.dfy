/** The deployed extraction stage, `information_extractor_handler` of the
    top-level module: the same work as the extraction service, run under the
    path parameter's session id, without the service's two assertions, and
    with TRANSCRIPTION_ERROR as its error status. */
module LegacyInformationExtractor {
  import opened Wrappers
  import opened Documents
  import opened TranscriptionModel
  import opened Store
  import opened Oracles
  import opened TranscriptionRepository
  import MedicalInfoExtractor

  /** The body of the `try` after validation: the STARTED status, then, once
      it is accepted, extraction, classification, the save and the FINISHED
      status, all under `sessionId`. The text is sent for extraction whatever it is. */
  function Steps(s: StoreState, caps: Capabilities, sessionId: string, t: Transcription): (r: (StoreState, Outcome))
    ensures r.0.down == s.down
    ensures !Accepts(s, MedicalInfoExtractor.Started(sessionId)) ==> r == Apply(s, MedicalInfoExtractor.Started(sessionId))
    ensures Accepts(s, MedicalInfoExtractor.Started(sessionId)) ==>
      r == MedicalInfoExtractor.AfterStarted(Apply(s, MedicalInfoExtractor.Started(sessionId)).0, caps, t.(sessionId := sessionId))
  {
    var (s1, o1) := Apply(s, MedicalInfoExtractor.Started(sessionId));
    if o1.Fail? then (s1, o1)
    else MedicalInfoExtractor.AfterStarted(s1, caps, t.(sessionId := sessionId))
  }

  function ErrorWrite(sessionId: string, message: string): Write {
    StatusWrite(sessionId, TranscriptionError, message)
  }

  /** The handler on the store's value. A missing parameter or document
      writes nothing; any later failure ends in an attempt to record
      TRANSCRIPTION_ERROR with the error text, and nothing is re-raised. */
  function HandlerSpec(s: StoreState, caps: Capabilities, param: Option<string>, data: Option<Document>): (r: StoreState)
    ensures r.down == s.down
    ensures !TruthyStr(param) || data.None? ==> r == s
    ensures TruthyStr(param) && data.Some? && ParseTranscription(data.value).Failure? ==>
      r == Apply(s, ErrorWrite(param.value, ParseTranscription(data.value).error)).0
    ensures TruthyStr(param) && data.Some? && ParseTranscription(data.value).Success? ==>
      var (s1, o) := Steps(s, caps, param.value, ParseTranscription(data.value).value);
      && (o.Pass? ==> r == s1)
      && (o.Fail? ==> r == Apply(s1, ErrorWrite(param.value, o.error)).0)
  {
    if !TruthyStr(param) || data.None? then s
    else match ParseTranscription(data.value)
      case Failure(e) => Apply(s, ErrorWrite(param.value, e)).0
      case Success(t) =>
        var (s1, o) := Steps(s, caps, param.value, t);
        if o.Fail? then Apply(s1, ErrorWrite(param.value, o.error)).0 else s1
  }

  /** Where the service's assertions hold and the document names the same
      session as the path, both variants do the same work. */
  lemma SameStepsAsService(s: StoreState, caps: Capabilities, t: Transcription)
    requires t.sessionId != "" && TruthyStr(t.text)
    ensures Steps(s, caps, t.sessionId, t) == MedicalInfoExtractor.ExtractionSteps(s, caps, t)
  {
    assert t.(sessionId := t.sessionId) == t;
  }

  /** They differ in the error status they record for the same failure:
      TRANSCRIPTION_ERROR here, INFORMATION_EXTRACTION_ERROR in the service. */
  lemma ErrorStatusDiffers(s: StoreState, caps: Capabilities, doc: Document)
    requires ParseTranscription(doc).Success?
    requires var t := ParseTranscription(doc).value;
      t.sessionId != "" && TruthyStr(t.text) && MedicalInfoExtractor.ExtractionSteps(s, caps, t).1.Fail?
    ensures var t := ParseTranscription(doc).value;
      var (s1, o) := MedicalInfoExtractor.ExtractionSteps(s, caps, t);
      var legacy := HandlerSpec(s, caps, Some(t.sessionId), Some(doc));
      var service := MedicalInfoExtractor.ProcessSpec(s, caps, t);
      && legacy.journal == s1.journal + [Attempt(StatusWrite(t.sessionId, TranscriptionError, o.error), Accepts(s1, StatusWrite(t.sessionId, TranscriptionError, o.error)))]
      && service.journal == s1.journal + [Attempt(StatusWrite(t.sessionId, InformationExtractionError, o.error), Accepts(s1, StatusWrite(t.sessionId, InformationExtractionError, o.error)))]
  {
    SameStepsAsService(s, caps, ParseTranscription(doc).value);
  }

  /** An empty transcription is still sent for extraction here, once the
      STARTED status is accepted; the service records an error instead and
      calls nothing. */
  lemma EmptyTextStillExtracted(s: StoreState, caps: Capabilities, t: Transcription)
    requires t.sessionId != "" && !TruthyStr(t.text) && Accepts(s, MedicalInfoExtractor.Started(t.sessionId))
    ensures var r := Steps(s, caps, t.sessionId, t).0;
      |r.journal| > |s.journal| + 1 && r.journal[|s.journal| + 1] == Call(ExtractInformation)
    ensures |MedicalInfoExtractor.ProcessSpec(s, caps, t).journal| == |s.journal| + 1
  {
    var s1 := Apply(s, MedicalInfoExtractor.Started(t.sessionId)).0;
    assert t.(sessionId := t.sessionId) == t;
    MedicalInfoExtractor.ExtractionCalledFirst(s1, caps, t);
    MedicalInfoExtractor.EmptyTextOnlyRecordsError(s, caps, t);
  }

  method Handler(store: RecordStore, caps: Capabilities, param: Option<string>, data: Option<Document>)
    modifies store
    ensures store.State() == HandlerSpec(old(store.State()), caps, param, data)
  {
    if !TruthyStr(param) || data.None? {
      return;
    }
    var sessionId := param.value;
    var t := ParseTranscription(data.value);
    var o: Outcome;
    if t.Failure? {
      o := Fail(t.error);
    } else {
      o := SetProcessingStatus(store, sessionId, InformationExtractionStarted, "");
      if o.Pass? {
        o := MedicalInfoExtractor.AfterStartedMethod(store, caps, t.value.(sessionId := sessionId));
      }
    }
    if o.Fail? {
      var _ := SetProcessingStatus(store, sessionId, TranscriptionError, o.error);
    }
  }
}
