/** `diagnosis_generation_handler`: fired when a clinical record is created;
    it validates the document and runs the diagnosis service, and turns any
    failure into DIAGNOSIS_ERROR. Nothing escapes to the dispatcher. */
module DiagnosisGenerationTrigger {
  import opened Wrappers
  import opened Documents
  import opened TranscriptionModel
  import opened ClinicalRecordModel
  import opened Store
  import opened Oracles
  import opened TranscriptionRepository
  import DiagnosisGenerationService

  const NoDataError: string := "Empty object provided on function invoke"

  function ErrorWrite(sessionId: string, message: string): Write {
    StatusWrite(sessionId, DiagnosisError, message)
  }

  /** The body of the `try`: the record from the event, then the service. */
  function Run(s: StoreState, caps: Capabilities, data: Option<Document>, floatText: real -> string): (r: (StoreState, Outcome))
    ensures |s.journal| <= |r.0.journal|
    ensures data.None? ==> r == (s, Fail(NoDataError))
    ensures data.Some? && ParseClinicalRecord(data.value).Failure? ==> r == (s, Fail(ParseClinicalRecord(data.value).error))
    ensures data.Some? && ParseClinicalRecord(data.value).Success? ==>
      r == DiagnosisGenerationService.ProcessSpec(s, caps, ParseClinicalRecord(data.value).value, floatText)
  {
    if data.None? then (s, Fail(NoDataError))
    else match ParseClinicalRecord(data.value)
      case Failure(e) => (s, Fail(e))
      case Success(rec) => DiagnosisGenerationService.ProcessSpec(s, caps, rec, floatText)
  }

  /** The handler on the store's value, for the `session_id` path parameter
      and the created document, if any. Every failure, a missing document
      included, ends in an attempt to record DIAGNOSIS_ERROR with its text
      under the parameter's session, provided the parameter is set. */
  function HandlerSpec(s: StoreState, caps: Capabilities, param: Option<string>, data: Option<Document>, floatText: real -> string)
    : (r: StoreState)
    ensures r.down == s.down
    ensures !TruthyStr(param) ==> r == s
    ensures TruthyStr(param) && data.None? ==> r == Apply(s, ErrorWrite(param.value, NoDataError)).0
    ensures TruthyStr(param) ==>
      var (s1, o) := Run(s, caps, data, floatText);
      && (o.Pass? ==> r == s1)
      && (o.Fail? ==> r == Apply(s1, ErrorWrite(param.value, o.error)).0)
  {
    if !TruthyStr(param) then s
    else
      var (s1, o) := Run(s, caps, data, floatText);
      if o.Fail? then Apply(s1, ErrorWrite(param.value, o.error)).0 else s1
  }

  /** A successful run leaves the accepted DIAGNOSIS_FINISHED last. */
  lemma EndsFinishedOnPass(s: StoreState, caps: Capabilities, param: Option<string>, data: Option<Document>, floatText: real -> string)
    requires TruthyStr(param) && Run(s, caps, data, floatText).1.Pass?
    ensures data.Some? && ParseClinicalRecord(data.value).Success?
    ensures var r := HandlerSpec(s, caps, param, data, floatText);
      && |r.journal| > |s.journal|
      && r.journal[|r.journal| - 1] == Attempt(DiagnosisGenerationService.Finished(ParseClinicalRecord(data.value).value.sessionId), true)
  {
    var rec := ParseClinicalRecord(data.value).value;
    DiagnosisGenerationService.SuccessEndsFinished(s, caps, rec, floatText);
  }

  /** A failed run leaves an attempt at DIAGNOSIS_ERROR with its text last. */
  lemma EndsInErrorOnFail(s: StoreState, caps: Capabilities, param: Option<string>, data: Option<Document>, floatText: real -> string)
    requires TruthyStr(param) && Run(s, caps, data, floatText).1.Fail?
    ensures var r := HandlerSpec(s, caps, param, data, floatText);
      && |r.journal| > |s.journal|
      && r.journal[|r.journal| - 1] == Attempt(ErrorWrite(param.value, Run(s, caps, data, floatText).1.error), r.journal[|r.journal| - 1].ok)
  {
    var (s1, o) := Run(s, caps, data, floatText);
    var w := ErrorWrite(param.value, o.error);
    assert HandlerSpec(s, caps, param, data, floatText) == Apply(s1, w).0;
  }

  /** With the parameter set, every run ends in a terminal status for the
      diagnosis stage: the accepted DIAGNOSIS_FINISHED, or an attempt at
      DIAGNOSIS_ERROR carrying the error text. */
  lemma EndsInTerminalStatus(s: StoreState, caps: Capabilities, param: Option<string>, data: Option<Document>, floatText: real -> string)
    requires TruthyStr(param)
    ensures var r := HandlerSpec(s, caps, param, data, floatText);
      var o := Run(s, caps, data, floatText).1;
      && |r.journal| > |s.journal|
      && (o.Pass? ==> r.journal[|r.journal| - 1] == Attempt(DiagnosisGenerationService.Finished(ParseClinicalRecord(data.value).value.sessionId), true))
      && (o.Fail? ==> r.journal[|r.journal| - 1].Attempt?
                      && r.journal[|r.journal| - 1].write == ErrorWrite(param.value, o.error))
  {
    if Run(s, caps, data, floatText).1.Pass? {
      EndsFinishedOnPass(s, caps, param, data, floatText);
    } else {
      EndsInErrorOnFail(s, caps, param, data, floatText);
    }
  }

  /** When STARTED is rejected or generation fails, the handler leaves every
      document other than the two transcription documents it writes a
      status to, the clinical record included, as it was. */
  lemma FailedGenerationLeavesRecord(s: StoreState, caps: Capabilities, param: Option<string>, data: Option<Document>, floatText: real -> string, k: Key)
    requires TruthyStr(param) && data.Some? && ParseClinicalRecord(data.value).Success?
    requires var rec := ParseClinicalRecord(data.value).value;
      && rec.sessionId != "" && k != TranscriptionKey(rec.sessionId) && k != TranscriptionKey(param.value)
      && var st := DiagnosisGenerationService.Started(rec.sessionId);
      (!Accepts(s, st) || DiagnosisGenerationService.GenerateSpec(Apply(s, st).0, caps, rec, floatText).1.Failure?)
    ensures var r := HandlerSpec(s, caps, param, data, floatText);
      (k in r.docs <==> k in s.docs) && (k in s.docs ==> r.docs[k] == s.docs[k])
  {
    var rec := ParseClinicalRecord(data.value).value;
    DiagnosisGenerationService.FailureLeavesRecord(s, caps, rec, floatText, k);
    var (s1, o) := Run(s, caps, data, floatText);
    ApplyFrame(s1, ErrorWrite(param.value, o.error), k);
  }

  method Handler(store: RecordStore, caps: Capabilities, param: Option<string>, data: Option<Document>, floatText: real -> string)
    modifies store
    ensures store.State() == HandlerSpec(old(store.State()), caps, param, data, floatText)
  {
    if !TruthyStr(param) {
      return;
    }
    var o: Outcome;
    if data.None? {
      o := Fail(NoDataError);
    } else {
      var rec := ParseClinicalRecord(data.value);
      if rec.Failure? {
        o := Fail(rec.error);
      } else {
        o := DiagnosisGenerationService.Process(store, caps, rec.value, floatText);
      }
    }
    if o.Fail? {
      var _ := SetProcessingStatus(store, param.value, DiagnosisError, o.error);
    }
  }
}
