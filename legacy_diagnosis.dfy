/** The deployed diagnosis stage, `diagnosis_generation` of the top-level
    module: one model call producing the report and the diagnoses together,
    free-form status strings, and no status write when the event is empty. */
module LegacyDiagnosisGeneration {
  import opened Wrappers
  import opened Documents
  import opened TranscriptionModel
  import opened MedicalExtractionModel
  import opened ClinicalRecordModel
  import opened Store
  import opened Oracles
  import opened Text
  import opened TranscriptionRepository
  import opened ClinicalRecordRepository
  import DiagnosisGenerationService
  import DiagnosisGenerationTrigger

  const Processing: string := "processing_diagnosis"
  const Complete: string := "diagnosis_complete"
  const ErrorStatus: string := "error_processing_diagnosis"

  /** `raise "..."` raises a TypeError instead of the string. */
  const RaiseStringError: string := "exceptions must derive from BaseException"

  /** The module's own `set_processing_status`: the same three-field update
      of `transcriptions/{session_id}`, with the status given as a string. */
  function LegacyStatusWrite(sessionId: string, status: string, errorMessage: string): (w: Write)
    ensures w.Update? && w.key == TranscriptionKey(sessionId)
    ensures w.fields == StatusUpdate(status, errorMessage)
  {
    Update(TranscriptionKey(sessionId), StatusUpdate(status, errorMessage))
  }

  /** None of the three status strings is a value of the status enum, so a
      transcription carrying one no longer validates. */
  lemma StatusesOutsideEnum()
    ensures ParseStatus(Processing) == None && ParseStatus(Complete) == None && ParseStatus(ErrorStatus) == None
    ensures forall st :: StatusValue(st) != Processing && StatusValue(st) != Complete && StatusValue(st) != ErrorStatus
  {
    forall st ensures StatusValue(st) != Processing && StatusValue(st) != Complete && StatusValue(st) != ErrorStatus {
      ParseStatusValue(st);
    }
  }

  /** The search query: the symptom names as written, then the reason for
      the visit, space-separated; nothing is lower-cased. */
  function QueryParts(rec: ClinicalRecord): (r: seq<string>)
    ensures |r| == (if rec.classifiedSymptoms.Some? then |rec.classifiedSymptoms.value| else 0)
                   + (if TruthyStr(rec.reasonForVisit) then 1 else 0)
    ensures rec.classifiedSymptoms.Some? ==> forall i :: 0 <= i < |rec.classifiedSymptoms.value| ==>
              r[i] == rec.classifiedSymptoms.value[i].name
    ensures TruthyStr(rec.reasonForVisit) ==> r[|r| - 1] == rec.reasonForVisit.value
  {
    var names := if rec.classifiedSymptoms.Some? then
        seq(|rec.classifiedSymptoms.value|, i requires 0 <= i < |rec.classifiedSymptoms.value| => rec.classifiedSymptoms.value[i].name)
      else [];
    names + (if TruthyStr(rec.reasonForVisit) then [rec.reasonForVisit.value] else [])
  }

  function Query(rec: ClinicalRecord): string {
    Join(" ", QueryParts(rec))
  }

  /** The two queries differ only in case: lower-casing this one, part by
      part, gives the service's. */
  lemma QueryLowersToService(rec: ClinicalRecord)
    ensures |QueryParts(rec)| == |DiagnosisGenerationService.QueryParts(rec)|
    ensures forall i :: 0 <= i < |QueryParts(rec)| ==> Lower(QueryParts(rec)[i]) == DiagnosisGenerationService.QueryParts(rec)[i]
  {
  }

  function KnowledgeCalls(caps: Capabilities, rec: ClinicalRecord): seq<Event> {
    if caps.indexKnowledge.Fail? then [Call(IndexKnowledgeBase)]
    else [Call(IndexKnowledgeBase), Call(SearchKnowledge(Query(rec)))]
  }

  /** `retrieve_medical_knowledge`: the same formatting and fallbacks as the
      service's retrieval, for this query; it never fails and is never empty. */
  function RetrieveSpec(s: StoreState, caps: Capabilities, rec: ClinicalRecord): (r: (StoreState, string))
    ensures r.0 == s.(journal := s.journal + KnowledgeCalls(caps, rec))
    ensures r.1 != ""
    ensures caps.indexKnowledge.Fail? || caps.searchKnowledge(Query(rec)).Failure? ==>
      r.1 == DiagnosisGenerationService.KnowledgeUnavailableText
    ensures caps.indexKnowledge.Pass? && caps.searchKnowledge(Query(rec)).Success? ==>
      r.1 == DiagnosisGenerationService.KnowledgeText(caps.searchKnowledge(Query(rec)).value)
  {
    var s1 := Record(s, IndexKnowledgeBase);
    if caps.indexKnowledge.Fail? then (s1, DiagnosisGenerationService.KnowledgeUnavailableText)
    else
      var q := Query(rec);
      var s2 := Record(s1, SearchKnowledge(q));
      var hits := caps.searchKnowledge(q);
      if hits.Failure? then (s2, DiagnosisGenerationService.KnowledgeUnavailableText)
      else if hits.value != [] then
        DiagnosisGenerationService.JoinNonEmpty("\n", DiagnosisGenerationService.KnowledgeLines(hits.value));
        (s2, DiagnosisGenerationService.KnowledgeText(hits.value))
      else (s2, DiagnosisGenerationService.KnowledgeText(hits.value))
  }

  function PromptFor(kb: string, rec: ClinicalRecord, patient: PatientInfo, floatText: real -> string): LegacyPrompt {
    LegacyPrompt(kb, rec.summary, patient, DiagnosisGenerationService.OrNotSpecified(rec.reasonForVisit),
                 DiagnosisGenerationService.FormatSymptoms(rec.classifiedSymptoms.GetOr([]), floatText))
  }

  /** `generate_diagnosis`: retrieval, then the single model call. Every
      failure of the call, a missing patient record included, surfaces as
      the TypeError of raising a string. */
  function GenerateSpec(s: StoreState, caps: Capabilities, rec: ClinicalRecord, floatText: real -> string)
    : (r: (StoreState, Result<ReportOutput>))
    ensures r.0.docs == s.docs && r.0.down == s.down
    ensures |s.journal| <= |r.0.journal| && r.0.journal[..|s.journal|] == s.journal
    ensures r.1.Failure? ==> r.1.error == RaiseStringError
    ensures rec.patientInfo.None? ==> r.1.Failure? && r.0.journal == s.journal + KnowledgeCalls(caps, rec)
    ensures r.1.Success? ==>
      && rec.patientInfo.Some?
      && r.0.journal == s.journal + (KnowledgeCalls(caps, rec) + [Call(GenerateLegacyReport)])
      && caps.legacyReport(PromptFor(RetrieveSpec(s, caps, rec).1, rec, rec.patientInfo.value, floatText)) == Success(r.1.value)
  {
    var (s1, kb) := RetrieveSpec(s, caps, rec);
    if rec.patientInfo.None? then (s1, Failure(RaiseStringError))
    else
      var s2 := Record(s1, GenerateLegacyReport);
      var out := caps.legacyReport(PromptFor(kb, rec, rec.patientInfo.value, floatText));
      Assoc(s.journal, KnowledgeCalls(caps, rec), [Call(GenerateLegacyReport)]);
      if out.Failure? then (s2, Failure(RaiseStringError)) else (s2, out)
  }

  /** The body of the `try` after validation: "processing_diagnosis", the
      generation, the report saved under the record's own session id, then
      "diagnosis_complete" under the parameter's. The journal only grows,
      and its first new event is the attempt at "processing_diagnosis". */
  function Body(s: StoreState, caps: Capabilities, sessionId: string, rec: ClinicalRecord, floatText: real -> string)
    : (r: (StoreState, Outcome))
    ensures r.0.down == s.down
    ensures |s.journal| < |r.0.journal| && r.0.journal[..|s.journal|] == s.journal
    ensures r.0.journal[|s.journal|] == Attempt(LegacyStatusWrite(sessionId, Processing, ""), Accepts(s, LegacyStatusWrite(sessionId, Processing, "")))
  {
    var (s1, o1) := Apply(s, LegacyStatusWrite(sessionId, Processing, ""));
    if o1.Fail? then (s1, o1)
    else
      var (s2, out) := GenerateSpec(s1, caps, rec, floatText);
      if out.Failure? then (s2, Fail(out.error))
      else
        var (s3, o3) := Apply(s2, DiagnosisReportWrite(rec.sessionId, out.value.report, out.value.probabilities));
        if o3.Fail? then (s3, o3)
        else Apply(s3, LegacyStatusWrite(sessionId, Complete, ""))
  }

  /** What the generation step of `Body` returns. */
  function Generated(s: StoreState, caps: Capabilities, sessionId: string, rec: ClinicalRecord, floatText: real -> string)
    : Result<ReportOutput>
  {
    GenerateSpec(Apply(s, LegacyStatusWrite(sessionId, Processing, "")).0, caps, rec, floatText).1
  }

  /** A run that succeeds ends with the accepted report save, under the
      record's own session id, and then the accepted "diagnosis_complete"
      under the parameter's. */
  lemma SuccessSavesThenCompletes(s: StoreState, caps: Capabilities, sessionId: string, rec: ClinicalRecord, floatText: real -> string)
    requires Body(s, caps, sessionId, rec, floatText).1.Pass?
    ensures Generated(s, caps, sessionId, rec, floatText).Success?
    ensures var r := Body(s, caps, sessionId, rec, floatText).0;
      var out := Generated(s, caps, sessionId, rec, floatText).value;
      && |r.journal| >= 2
      && r.journal[|r.journal| - 2] == Attempt(DiagnosisReportWrite(rec.sessionId, out.report, out.probabilities), true)
      && r.journal[|r.journal| - 1] == Attempt(LegacyStatusWrite(sessionId, Complete, ""), true)
  {
    var (s1, o1) := Apply(s, LegacyStatusWrite(sessionId, Processing, ""));
    assert o1.Pass?;
    var (s2, out) := GenerateSpec(s1, caps, rec, floatText);
    assert out.Success?;
    var w := DiagnosisReportWrite(rec.sessionId, out.value.report, out.value.probabilities);
    var (s3, o3) := Apply(s2, w);
    assert o3.Pass?;
    var c := LegacyStatusWrite(sessionId, Complete, "");
    var r := Apply(s3, c);
    assert r == Body(s, caps, sessionId, rec, floatText);
    assert r.0.journal == s2.journal + [Attempt(w, true), Attempt(c, true)];
  }

  method BodyMethod(store: RecordStore, caps: Capabilities, sessionId: string, rec: ClinicalRecord, floatText: real -> string)
    returns (o: Outcome)
    modifies store
    ensures (store.State(), o) == Body(old(store.State()), caps, sessionId, rec, floatText)
  {
    o := store.Write(LegacyStatusWrite(sessionId, Processing, ""));
    if o.Fail? {
      return;
    }
    var out := Generate(store, caps, rec, floatText);
    if out.Failure? {
      return Fail(out.error);
    }
    o := SaveDiagnosisReport(store, rec.sessionId, out.value.report, out.value.probabilities);
    if o.Pass? {
      o := store.Write(LegacyStatusWrite(sessionId, Complete, ""));
    }
  }

  function ErrorWrite(sessionId: string, message: string): Write {
    LegacyStatusWrite(sessionId, ErrorStatus, message)
  }

  /** The handler on the store's value: a missing parameter or document
      writes nothing; every other failure ends in an attempt to record
      "error_processing_diagnosis" with the error text, and nothing is re-raised. */
  function HandlerSpec(s: StoreState, caps: Capabilities, param: Option<string>, data: Option<Document>, floatText: real -> string)
    : (r: StoreState)
    ensures r.down == s.down
    ensures !TruthyStr(param) || data.None? ==> r == s
    ensures TruthyStr(param) && data.Some? && ParseClinicalRecord(data.value).Failure? ==>
      r == Apply(s, ErrorWrite(param.value, ParseClinicalRecord(data.value).error)).0
    ensures TruthyStr(param) && data.Some? && ParseClinicalRecord(data.value).Success? ==>
      var (s1, o) := Body(s, caps, param.value, ParseClinicalRecord(data.value).value, floatText);
      && (o.Pass? ==> r == s1)
      && (o.Fail? ==> r == Apply(s1, ErrorWrite(param.value, o.error)).0)
  {
    if !TruthyStr(param) || data.None? then s
    else match ParseClinicalRecord(data.value)
      case Failure(e) => Apply(s, ErrorWrite(param.value, e)).0
      case Success(rec) =>
        var (s1, o) := Body(s, caps, param.value, rec, floatText);
        if o.Fail? then Apply(s1, ErrorWrite(param.value, o.error)).0 else s1
  }

  /** An event without a document is ignored here, while the refactored
      handler records DIAGNOSIS_ERROR for it. */
  lemma MissingDocumentDiffers(s: StoreState, caps: Capabilities, sessionId: string, floatText: real -> string)
    requires sessionId != ""
    ensures HandlerSpec(s, caps, Some(sessionId), None, floatText) == s
    ensures DiagnosisGenerationTrigger.HandlerSpec(s, caps, Some(sessionId), None, floatText)
         == Apply(s, DiagnosisGenerationTrigger.ErrorWrite(sessionId, DiagnosisGenerationTrigger.NoDataError)).0
  {
  }

  method Generate(store: RecordStore, caps: Capabilities, rec: ClinicalRecord, floatText: real -> string) returns (r: Result<ReportOutput>)
    modifies store
    ensures (store.State(), r) == GenerateSpec(old(store.State()), caps, rec, floatText)
  {
    store.CallExternal(IndexKnowledgeBase);
    var kb := DiagnosisGenerationService.KnowledgeUnavailableText;
    if caps.indexKnowledge.Pass? {
      var q := Query(rec);
      store.CallExternal(SearchKnowledge(q));
      var hits := caps.searchKnowledge(q);
      if hits.Success? {
        kb := DiagnosisGenerationService.FormatKnowledge(hits.value);
      }
    }
    var _ := DiagnosisGenerationService.FormatSymptomsForPrompt(rec.classifiedSymptoms.GetOr([]), floatText);
    if rec.patientInfo.None? {
      return Failure(RaiseStringError);
    }
    store.CallExternal(GenerateLegacyReport);
    r := caps.legacyReport(PromptFor(kb, rec, rec.patientInfo.value, floatText));
    if r.Failure? {
      r := Failure(RaiseStringError);
    }
  }

  method Handler(store: RecordStore, caps: Capabilities, param: Option<string>, data: Option<Document>, floatText: real -> string)
    modifies store
    ensures store.State() == HandlerSpec(old(store.State()), caps, param, data, floatText)
  {
    if !TruthyStr(param) || data.None? {
      return;
    }
    var sessionId := param.value;
    var rec := ParseClinicalRecord(data.value);
    var o: Outcome;
    if rec.Failure? {
      o := Fail(rec.error);
    } else {
      o := BodyMethod(store, caps, sessionId, rec.value, floatText);
    }
    if o.Fail? {
      var _ := store.Write(ErrorWrite(sessionId, o.error));
    }
  }
}
