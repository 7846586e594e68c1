/** `DiagnosisGenerationService`: retrieve knowledge for the record, ask for a
    list of probable diagnoses, a treatment plan and a final report, save the
    report with the diagnoses, and keep the transcription's status up to
    date. Every error is re-raised. */
module DiagnosisGenerationService {
  import opened Wrappers
  import opened Documents
  import opened TranscriptionModel
  import opened MedicalExtractionModel
  import opened ClinicalRecordModel
  import opened Store
  import opened Oracles
  import opened Text
  import opened TranscriptionRepository
  import opened ClinicalRecordRepository

  const NoSymptomsText: string := "No specific symptoms documented."
  const GeneralKnowledgeText: string := "General medical knowledge base available for consultation."
  const KnowledgeUnavailableText: string := "Medical knowledge base temporarily unavailable."
  const NotSpecifiedText: string := "Not specified"
  const NoPatientInfoError: string := "'NoneType' object has no attribute 'model_dump_json'"

  // ---- symptoms for the prompt ----

  function Detail(name: string, v: Option<string>): seq<string> {
    if v.Some? then [name + ": " + v.value] else []
  }

  /** The details of a classified symptom: each of severity, intensity and
      duration that is not None, then the confidence, which is always there.
      `floatText` is Python's `str` of a float. */
  function Details(c: ClassifiedSymptoms, floatText: real -> string): (r: seq<string>)
    ensures r != [] && r[|r| - 1] == "Confidence: " + floatText(c.confidenceScore)
  {
    Detail("Severity", c.severity) + Detail("Intensity", c.intensity) + Detail("Duration", c.duration)
    + ["Confidence: " + floatText(c.confidenceScore)]
  }

  /** `- **name** - detail - detail ...` */
  function SymptomLine(c: ClassifiedSymptoms, floatText: real -> string): string {
    var details := Details(c, floatText);
    "- **" + c.name + "**" + (if details != [] then " - " + Join(" - ", details) else "")
  }

  function SymptomLines(cs: seq<ClassifiedSymptoms>, floatText: real -> string): (r: seq<string>)
    ensures |r| == |cs|
    ensures forall i :: 0 <= i < |cs| ==> r[i] == SymptomLine(cs[i], floatText)
  {
    seq(|cs|, i requires 0 <= i < |cs| => SymptomLine(cs[i], floatText))
  }

  /** `_format_symptoms_for_prompt`. */
  function FormatSymptoms(cs: seq<ClassifiedSymptoms>, floatText: real -> string): string {
    if cs == [] then NoSymptomsText else Join("\n", SymptomLines(cs, floatText))
  }

  predicate NoNewline(s: string) {
    '\n' !in s
  }

  predicate OptNoNewline(o: Option<string>) {
    o.Some? ==> NoNewline(o.value)
  }

  lemma JoinNoNewline(sep: string, parts: seq<string>)
    requires NoNewline(sep) && forall i :: 0 <= i < |parts| ==> NoNewline(parts[i])
    ensures NoNewline(Join(sep, parts))
  {
    if |parts| > 1 {
      JoinNoNewline(sep, parts[1..]);
    }
  }

  /** A symptom line holds no line break when none of its fields does. */
  lemma SymptomLineNoNewline(c: ClassifiedSymptoms, floatText: real -> string)
    requires NoNewline(c.name) && OptNoNewline(c.severity) && OptNoNewline(c.intensity)
    requires OptNoNewline(c.duration) && NoNewline(floatText(c.confidenceScore))
    ensures NoNewline(SymptomLine(c, floatText))
  {
    var details := Details(c, floatText);
    JoinNoNewline(" - ", details);
    var tail := " - " + Join(" - ", details);
    assert SymptomLine(c, floatText) == "- **" + c.name + "**" + tail;
    assert forall k :: 0 <= k < |"- **" + c.name + "**"| ==> ("- **" + c.name + "**")[k] != '\n';
  }

  /** A symptom line opens with the symptom's name in bold. */
  lemma SymptomLineHead(c: ClassifiedSymptoms, floatText: real -> string)
    ensures var line := SymptomLine(c, floatText);
      |line| >= |c.name| + 6 && line[..|c.name| + 6] == "- **" + c.name + "**"
  {
    var head := "- **" + c.name + "**";
    var details := Details(c, floatText);
    assert SymptomLine(c, floatText) == head + (" - " + Join(" - ", details));
  }

  /** The formatted symptoms are one line per symptom, in order, each
      opening with the symptom's name in bold, as long as no field holds a
      line break. */
  lemma FormattedSymptomsAreLines(cs: seq<ClassifiedSymptoms>, floatText: real -> string)
    requires cs != []
    requires forall i :: 0 <= i < |cs| ==>
      NoNewline(cs[i].name) && OptNoNewline(cs[i].severity) && OptNoNewline(cs[i].intensity)
      && OptNoNewline(cs[i].duration) && NoNewline(floatText(cs[i].confidenceScore))
    ensures Split('\n', FormatSymptoms(cs, floatText)) == SymptomLines(cs, floatText)
    ensures forall i :: 0 <= i < |cs| ==>
      var line := SymptomLines(cs, floatText)[i];
      |line| >= |cs[i].name| + 6 && line[..|cs[i].name| + 6] == "- **" + cs[i].name + "**"
  {
    var lines := SymptomLines(cs, floatText);
    forall i | 0 <= i < |cs|
      ensures '\n' !in lines[i]
    {
      SymptomLineNoNewline(cs[i], floatText);
    }
    SplitJoin('\n', lines);
    forall i | 0 <= i < |cs|
      ensures |lines[i]| >= |cs[i].name| + 6 && lines[i][..|cs[i].name| + 6] == "- **" + cs[i].name + "**"
    {
      SymptomLineHead(cs[i], floatText);
    }
  }

  /** The loop of `_format_symptoms_for_prompt`. */
  method FormatSymptomsForPrompt(cs: seq<ClassifiedSymptoms>, floatText: real -> string) returns (text: string)
    ensures text == FormatSymptoms(cs, floatText)
  {
    if cs == [] {
      return NoSymptomsText;
    }
    var lines: seq<string> := [];
    var i := 0;
    while i < |cs|
      invariant 0 <= i <= |cs|
      invariant lines == SymptomLines(cs[..i], floatText)
    {
      var details := Details(cs[i], floatText);
      var suffix := if details != [] then " - " + Join(" - ", details) else "";
      lines := lines + ["- **" + cs[i].name + "**" + suffix];
      i := i + 1;
    }
    assert cs[..i] == cs;
    text := Join("\n", lines);
  }

  // ---- knowledge retrieval ----

  /** The search query: the lower-cased names of the classified symptoms, then
      the lower-cased reason for the visit, space-separated. */
  function QueryParts(rec: ClinicalRecord): (r: seq<string>)
    ensures |r| == (if rec.classifiedSymptoms.Some? then |rec.classifiedSymptoms.value| else 0)
                   + (if TruthyStr(rec.reasonForVisit) then 1 else 0)
    ensures rec.classifiedSymptoms.Some? ==> forall i :: 0 <= i < |rec.classifiedSymptoms.value| ==>
              r[i] == Lower(rec.classifiedSymptoms.value[i].name)
    ensures TruthyStr(rec.reasonForVisit) ==> r[|r| - 1] == Lower(rec.reasonForVisit.value)
  {
    var names := if rec.classifiedSymptoms.Some? then
        seq(|rec.classifiedSymptoms.value|, i requires 0 <= i < |rec.classifiedSymptoms.value| => Lower(rec.classifiedSymptoms.value[i].name))
      else [];
    names + (if TruthyStr(rec.reasonForVisit) then [Lower(rec.reasonForVisit.value)] else [])
  }

  function KnowledgeQuery(rec: ClinicalRecord): string {
    Join(" ", QueryParts(rec))
  }

  function KnowledgeLines(hits: seq<string>): (r: seq<string>)
    ensures |r| == |hits| && forall i :: 0 <= i < |hits| ==> r[i] == "- " + hits[i]
  {
    seq(|hits|, i requires 0 <= i < |hits| => "- " + hits[i])
  }

  /** The context from the hits: one `- content` line per hit, or the general
      note when there is none. */
  function KnowledgeText(hits: seq<string>): string {
    if hits == [] then GeneralKnowledgeText else Join("\n", KnowledgeLines(hits))
  }

  /** The loop of `_retrieve_medical_knowledge` that formats the hits. */
  method FormatKnowledge(hits: seq<string>) returns (text: string)
    ensures text == KnowledgeText(hits)
  {
    var parts: seq<string> := [];
    var i := 0;
    while i < |hits|
      invariant 0 <= i <= |hits|
      invariant parts == KnowledgeLines(hits[..i])
    {
      parts := parts + ["- " + hits[i]];
      i := i + 1;
    }
    assert hits[..i] == hits;
    text := if parts != [] then Join("\n", parts) else GeneralKnowledgeText;
  }

  lemma JoinNonEmpty(sep: string, parts: seq<string>)
    requires parts != [] && parts[0] != ""
    ensures Join(sep, parts) != ""
  {
    if |parts| > 1 {
      assert Join(sep, parts)[0] == parts[0][0];
    }
  }

  /** The calls `_retrieve_medical_knowledge` makes: indexing, and the search
      when indexing succeeded. */
  function KnowledgeCalls(caps: Capabilities, rec: ClinicalRecord): seq<Event> {
    if caps.indexKnowledge.Fail? then [Call(IndexKnowledgeBase)]
    else [Call(IndexKnowledgeBase), Call(SearchKnowledge(KnowledgeQuery(rec)))]
  }

  /** `_retrieve_medical_knowledge` on the store's value: it never fails and
      never yields an empty context; any error gives the "unavailable" note,
      no hits give the general note, and hits give one line each. */
  function RetrieveKnowledgeSpec(s: StoreState, caps: Capabilities, rec: ClinicalRecord): (r: (StoreState, string))
    ensures r.0 == s.(journal := s.journal + KnowledgeCalls(caps, rec))
    ensures r.1 != ""
    ensures caps.indexKnowledge.Fail? || caps.searchKnowledge(KnowledgeQuery(rec)).Failure? ==> r.1 == KnowledgeUnavailableText
    ensures caps.indexKnowledge.Pass? && caps.searchKnowledge(KnowledgeQuery(rec)).Success? ==>
      r.1 == KnowledgeText(caps.searchKnowledge(KnowledgeQuery(rec)).value)
  {
    var s1 := Record(s, IndexKnowledgeBase);
    if caps.indexKnowledge.Fail? then (s1, KnowledgeUnavailableText)
    else
      var q := KnowledgeQuery(rec);
      var s2 := Record(s1, SearchKnowledge(q));
      var hits := caps.searchKnowledge(q);
      if hits.Failure? then (s2, KnowledgeUnavailableText)
      else
        if hits.value != [] then
          JoinNonEmpty("\n", KnowledgeLines(hits.value));
          (s2, KnowledgeText(hits.value))
        else (s2, KnowledgeText(hits.value))
  }

  method RetrieveMedicalKnowledge(store: RecordStore, caps: Capabilities, rec: ClinicalRecord) returns (kb: string)
    modifies store
    ensures (store.State(), kb) == RetrieveKnowledgeSpec(old(store.State()), caps, rec)
  {
    store.CallExternal(IndexKnowledgeBase);
    if caps.indexKnowledge.Fail? {
      return KnowledgeUnavailableText;
    }
    var q := KnowledgeQuery(rec);
    store.CallExternal(SearchKnowledge(q));
    var hits := caps.searchKnowledge(q);
    if hits.Failure? {
      return KnowledgeUnavailableText;
    }
    kb := FormatKnowledge(hits.value);
  }

  // ---- the three model calls ----

  function OrNotSpecified(o: Option<string>): string {
    if TruthyStr(o) then o.value else NotSpecifiedText
  }

  function DiagnosisPromptFor(kb: string, rec: ClinicalRecord, patient: PatientInfo, floatText: real -> string): DiagnosisPrompt {
    DiagnosisPrompt(kb, rec.summary, patient, OrNotSpecified(rec.reasonForVisit),
                    FormatSymptoms(rec.classifiedSymptoms.GetOr([]), floatText))
  }

  /** The report prompt as wired: the first step's output, the mapping
      `{"treatment_plan": plan}`, is passed through unchanged to both slots,
      so the diagnosis never reaches the report. */
  function ReportPromptAsWritten(d: DiagnosisList, plan: string): (p: ReportPrompt)
    ensures p.diagnosisOutput == PlanMapping(plan) && p.treatmentPlan == PlanMapping(plan)
  {
    ReportPrompt(PlanMapping(plan), PlanMapping(plan))
  }

  /** Any two diagnoses with the same plan give the same report prompt. */
  lemma AsWrittenReportIgnoresDiagnosis(d1: DiagnosisList, d2: DiagnosisList, plan: string)
    ensures ReportPromptAsWritten(d1, plan) == ReportPromptAsWritten(d2, plan)
  {
  }

  /** The report prompt as evidently intended: the diagnosis in its slot and
      the plan text in the other. */
  function ReportPromptFor(d: DiagnosisList, plan: string): (p: ReportPrompt)
    ensures p.diagnosisOutput.DiagnosisSlot? && p.diagnosisOutput.diagnosis == d
    ensures p.treatmentPlan == PlanText(plan)
  {
    ReportPrompt(DiagnosisSlot(d), PlanText(plan))
  }

  /** With that wiring the report prompt determines both the diagnosis and the plan. */
  lemma ReportPromptKeepsBoth(d1: DiagnosisList, p1: string, d2: DiagnosisList, p2: string)
    requires ReportPromptFor(d1, p1) == ReportPromptFor(d2, p2)
    ensures d1 == d2 && p1 == p2
  {
  }

  const ModelCalls: seq<Event> := [Call(GenerateDiagnosis), Call(PlanTreatment), Call(ComposeReport)]

  /** The chained calls, given the knowledge context, wired as the source
      wires them: the report call gets `ReportPromptAsWritten`. The patient
      information is serialised before the first call, so a record without it
      fails with no call made. */
  function ChainSpec(s: StoreState, caps: Capabilities, rec: ClinicalRecord, kb: string, floatText: real -> string)
    : (r: (StoreState, Result<(string, DiagnosisList)>))
    ensures r.0.docs == s.docs && r.0.down == s.down
    ensures |s.journal| <= |r.0.journal| && r.0.journal[..|s.journal|] == s.journal
    ensures rec.patientInfo.None? ==> r == (s, Failure(NoPatientInfoError))
    ensures r.1.Success? ==>
      && rec.patientInfo.Some?
      && r.0.journal == s.journal + ModelCalls
      && var d := caps.diagnose(DiagnosisPromptFor(kb, rec, rec.patientInfo.value, floatText));
      && d.Success? && r.1.value.1 == d.value
      && var plan := caps.planTreatment(d.value);
      && plan.Success?
      && caps.composeReport(ReportPromptAsWritten(d.value, plan.value)) == Success(r.1.value.0)
  {
    if rec.patientInfo.None? then (s, Failure(NoPatientInfoError))
    else
      var s1 := Record(s, GenerateDiagnosis);
      var d := caps.diagnose(DiagnosisPromptFor(kb, rec, rec.patientInfo.value, floatText));
      if d.Failure? then (s1, Failure(d.error))
      else
        var s2 := Record(s1, PlanTreatment);
        var plan := caps.planTreatment(d.value);
        if plan.Failure? then (s2, Failure(plan.error))
        else
          var s3 := Record(s2, ComposeReport);
          var report := caps.composeReport(ReportPromptAsWritten(d.value, plan.value));
          if report.Failure? then (s3, Failure(report.error))
          else (s3, Success((report.value, d.value)))
  }

  /** The same chain with the report prompt wired as evidently intended. */
  function ChainSpecIntended(s: StoreState, caps: Capabilities, rec: ClinicalRecord, kb: string, floatText: real -> string)
    : (r: (StoreState, Result<(string, DiagnosisList)>))
    ensures r.0.docs == s.docs && r.0.down == s.down
    ensures |s.journal| <= |r.0.journal| && r.0.journal[..|s.journal|] == s.journal
    ensures rec.patientInfo.None? ==> r == (s, Failure(NoPatientInfoError))
    ensures r.1.Success? ==>
      && rec.patientInfo.Some?
      && r.0.journal == s.journal + ModelCalls
      && var d := caps.diagnose(DiagnosisPromptFor(kb, rec, rec.patientInfo.value, floatText));
      && d.Success? && r.1.value.1 == d.value
      && var plan := caps.planTreatment(d.value);
      && plan.Success?
      && caps.composeReport(ReportPromptFor(d.value, plan.value)) == Success(r.1.value.0)
  {
    if rec.patientInfo.None? then (s, Failure(NoPatientInfoError))
    else
      var s1 := Record(s, GenerateDiagnosis);
      var d := caps.diagnose(DiagnosisPromptFor(kb, rec, rec.patientInfo.value, floatText));
      if d.Failure? then (s1, Failure(d.error))
      else
        var s2 := Record(s1, PlanTreatment);
        var plan := caps.planTreatment(d.value);
        if plan.Failure? then (s2, Failure(plan.error))
        else
          var s3 := Record(s2, ComposeReport);
          var report := caps.composeReport(ReportPromptFor(d.value, plan.value));
          if report.Failure? then (s3, Failure(report.error))
          else (s3, Success((report.value, d.value)))
  }

  /** The two wirings make the same calls and, where both succeed, yield the
      same diagnoses; they differ only in what the report call is given. */
  lemma ChainWiringsDifferOnlyInReport(s: StoreState, caps: Capabilities, rec: ClinicalRecord, kb: string, floatText: real -> string)
    ensures ChainSpec(s, caps, rec, kb, floatText).0 == ChainSpecIntended(s, caps, rec, kb, floatText).0
    ensures var a := ChainSpec(s, caps, rec, kb, floatText).1;
      var b := ChainSpecIntended(s, caps, rec, kb, floatText).1;
      a.Success? && b.Success? ==> a.value.1 == b.value.1
  {
  }

  /** `_generate_diagnosis_report` on the store's value. */
  function GenerateSpec(s: StoreState, caps: Capabilities, rec: ClinicalRecord, floatText: real -> string)
    : (r: (StoreState, Result<(string, DiagnosisList)>))
    ensures r.0.docs == s.docs && r.0.down == s.down
    ensures |s.journal| <= |r.0.journal| && r.0.journal[..|s.journal|] == s.journal
    ensures r.1.Success? ==> r.0.journal == s.journal + (KnowledgeCalls(caps, rec) + ModelCalls)
  {
    var (s1, kb) := RetrieveKnowledgeSpec(s, caps, rec);
    var r := ChainSpec(s1, caps, rec, kb, floatText);
    Assoc(s.journal, KnowledgeCalls(caps, rec), ModelCalls);
    r
  }

  method Chain(store: RecordStore, caps: Capabilities, rec: ClinicalRecord, kb: string, floatText: real -> string)
    returns (r: Result<(string, DiagnosisList)>)
    modifies store
    ensures (store.State(), r) == ChainSpec(old(store.State()), caps, rec, kb, floatText)
  {
    if rec.patientInfo.None? {
      return Failure(NoPatientInfoError);
    }
    store.CallExternal(GenerateDiagnosis);
    var d := caps.diagnose(DiagnosisPromptFor(kb, rec, rec.patientInfo.value, floatText));
    if d.Failure? {
      return Failure(d.error);
    }
    store.CallExternal(PlanTreatment);
    var plan := caps.planTreatment(d.value);
    if plan.Failure? {
      return Failure(plan.error);
    }
    store.CallExternal(ComposeReport);
    var report := caps.composeReport(ReportPromptAsWritten(d.value, plan.value));
    if report.Failure? {
      return Failure(report.error);
    }
    r := Success((report.value, d.value));
  }

  method GenerateDiagnosisReport(store: RecordStore, caps: Capabilities, rec: ClinicalRecord, floatText: real -> string)
    returns (r: Result<(string, DiagnosisList)>)
    modifies store
    ensures (store.State(), r) == GenerateSpec(old(store.State()), caps, rec, floatText)
  {
    var kb := RetrieveMedicalKnowledge(store, caps, rec);
    var _ := FormatSymptomsForPrompt(rec.classifiedSymptoms.GetOr([]), floatText);
    r := Chain(store, caps, rec, kb, floatText);
  }

  // ---- process ----

  function Started(sessionId: string): Write {
    StatusWrite(sessionId, DiagnosisStarted, "")
  }

  function Finished(sessionId: string): Write {
    StatusWrite(sessionId, DiagnosisFinished, "")
  }

  /** The report write and the FINISHED status, in that order. */
  function SaveAndFinish(s: StoreState, sessionId: string, g: (string, DiagnosisList)): (r: (StoreState, Outcome))
    ensures r.0.down == s.down
    ensures |s.journal| < |r.0.journal| && r.0.journal[..|s.journal|] == s.journal
    ensures r.1.Pass? ==>
      && r.0.journal == s.journal + [Attempt(DiagnosisReportWrite(sessionId, g.0, g.1.probabilities), true), Attempt(Finished(sessionId), true)]
      && ClinicalRecordKey(sessionId) in r.0.docs
      && var doc := r.0.docs[ClinicalRecordKey(sessionId)];
      && "diagnosis_report" in doc && doc["diagnosis_report"] == Str(g.0)
      && "diagnosis_probability" in doc && doc["diagnosis_probability"].List?
      && ParseDiagnoses(doc["diagnosis_probability"].items) == Success(g.1.probabilities)
  {
    var w := DiagnosisReportWrite(sessionId, g.0, g.1.probabilities);
    var (s1, o1) := Apply(s, w);
    if o1.Fail? then (s1, o1)
    else
      ApplyFrame(s1, Finished(sessionId), ClinicalRecordKey(sessionId));
      Apply(s1, Finished(sessionId))
  }

  /** `process` on the store's value. On success the STARTED status came
      first, then the knowledge calls and the three model calls, then one
      write holding both the report and the first call's diagnoses, then the
      FINISHED status; the saved report is what the last call returned. On
      failure the error is returned to the caller. */
  function ProcessSpec(s: StoreState, caps: Capabilities, rec: ClinicalRecord, floatText: real -> string)
    : (r: (StoreState, Outcome))
    ensures r.0.down == s.down
    ensures |s.journal| <= |r.0.journal|
    ensures rec.sessionId == "" ==> r == (s, Fail("session_id not provided"))
    ensures rec.sessionId != "" && !Accepts(s, Started(rec.sessionId)) ==>
      r.0.journal == s.journal + [Attempt(Started(rec.sessionId), false)] && r.0.docs == s.docs && r.1.Fail?
    ensures r.1.Pass? ==>
      && GenerateSpec(s, caps, rec, floatText).1.Success?
      && var g := GenerateSpec(s, caps, rec, floatText).1.value;
      && r.0.journal == s.journal + ([Attempt(Started(rec.sessionId), true)]
           + ((KnowledgeCalls(caps, rec) + ModelCalls)
              + [Attempt(DiagnosisReportWrite(rec.sessionId, g.0, g.1.probabilities), true), Attempt(Finished(rec.sessionId), true)]))
      && ClinicalRecordKey(rec.sessionId) in r.0.docs
      && var doc := r.0.docs[ClinicalRecordKey(rec.sessionId)];
      && "diagnosis_report" in doc && doc["diagnosis_report"] == Str(g.0)
      && "diagnosis_probability" in doc && doc["diagnosis_probability"].List?
      && ParseDiagnoses(doc["diagnosis_probability"].items) == Success(g.1.probabilities)
  {
    if rec.sessionId == "" then (s, Fail("session_id not provided"))
    else
      var (s1, o1) := Apply(s, Started(rec.sessionId));
      if o1.Fail? then (s1, o1)
      else
        var (s2, g) := GenerateSpec(s1, caps, rec, floatText);
        if g.Failure? then (s2, Fail(g.error))
        else
          var r := SaveAndFinish(s2, rec.sessionId, g.value);
          var tail := [Attempt(DiagnosisReportWrite(rec.sessionId, g.value.0, g.value.1.probabilities), true), Attempt(Finished(rec.sessionId), true)];
          Assoc(s1.journal, KnowledgeCalls(caps, rec) + ModelCalls, tail);
          Assoc(s.journal, [Attempt(Started(rec.sessionId), true)], (KnowledgeCalls(caps, rec) + ModelCalls) + tail);
          r
  }

  lemma LastOf(a: seq<Event>, b: seq<Event>)
    requires b != []
    ensures (a + b)[|a + b| - 1] == b[|b| - 1]
  {
  }

  /** A successful run ends with the accepted FINISHED status. */
  lemma {:induction false} SuccessEndsFinished(s: StoreState, caps: Capabilities, rec: ClinicalRecord, floatText: real -> string)
    requires ProcessSpec(s, caps, rec, floatText).1.Pass?
    ensures var r := ProcessSpec(s, caps, rec, floatText).0;
      |r.journal| > |s.journal| && r.journal[|r.journal| - 1] == Attempt(Finished(rec.sessionId), true)
  {
    var g := GenerateSpec(s, caps, rec, floatText).1.value;
    var tail := [Attempt(DiagnosisReportWrite(rec.sessionId, g.0, g.1.probabilities), true), Attempt(Finished(rec.sessionId), true)];
    var mid := KnowledgeCalls(caps, rec) + ModelCalls;
    LastOf(mid, tail);
    LastOf([Attempt(Started(rec.sessionId), true)], mid + tail);
    LastOf(s.journal, [Attempt(Started(rec.sessionId), true)] + (mid + tail));
  }

  /** DIAGNOSIS_STARTED is attempted before anything else the stage does:
      before any retrieval or model call and before any other write. */
  lemma StartedComesFirst(s: StoreState, caps: Capabilities, rec: ClinicalRecord, floatText: real -> string)
    requires rec.sessionId != ""
    ensures var r := ProcessSpec(s, caps, rec, floatText).0;
      |r.journal| > |s.journal| && r.journal[|s.journal|] == Attempt(Started(rec.sessionId), Accepts(s, Started(rec.sessionId)))
  {
    var (s1, o1) := Apply(s, Started(rec.sessionId));
    assert s1.journal[|s.journal|] == Attempt(Started(rec.sessionId), Accepts(s, Started(rec.sessionId)));
    if o1.Pass? {
      var (s2, g) := GenerateSpec(s1, caps, rec, floatText);
      assert s2.journal[|s.journal|] == s1.journal[|s.journal|];
      if g.Success? {
        var r := SaveAndFinish(s2, rec.sessionId, g.value);
        assert r.0.journal[|s.journal|] == s2.journal[|s.journal|];
      }
    }
  }

  /** A run in which STARTED is rejected, or any retrieval-to-report step
      fails (no patient information, a failed diagnosis, plan or report
      call), writes nothing but the status attempt: every document other
      than the transcription, the clinical record included, is untouched,
      and the error is returned. */
  lemma FailureLeavesRecord(s: StoreState, caps: Capabilities, rec: ClinicalRecord, floatText: real -> string, k: Key)
    requires rec.sessionId != "" && k != TranscriptionKey(rec.sessionId)
    requires !Accepts(s, Started(rec.sessionId)) || GenerateSpec(Apply(s, Started(rec.sessionId)).0, caps, rec, floatText).1.Failure?
    ensures var r := ProcessSpec(s, caps, rec, floatText).0;
      (k in r.docs <==> k in s.docs) && (k in s.docs ==> r.docs[k] == s.docs[k])
    ensures ProcessSpec(s, caps, rec, floatText).1.Fail?
  {
    ApplyFrame(s, Started(rec.sessionId), k);
  }

  /** The generation step does not depend on the store's contents. */
  lemma GenerateIgnoresDocuments(s: StoreState, t: StoreState, caps: Capabilities, rec: ClinicalRecord, floatText: real -> string)
    ensures GenerateSpec(s, caps, rec, floatText).1 == GenerateSpec(t, caps, rec, floatText).1
  {
  }

  method SaveAndFinishMethod(store: RecordStore, sessionId: string, g: (string, DiagnosisList)) returns (o: Outcome)
    modifies store
    ensures (store.State(), o) == SaveAndFinish(old(store.State()), sessionId, g)
  {
    o := SaveDiagnosisReport(store, sessionId, g.0, g.1.probabilities);
    if o.Fail? {
      return;
    }
    o := SetProcessingStatus(store, sessionId, DiagnosisFinished, "");
  }

  method Process(store: RecordStore, caps: Capabilities, rec: ClinicalRecord, floatText: real -> string) returns (o: Outcome)
    modifies store
    ensures (store.State(), o) == ProcessSpec(old(store.State()), caps, rec, floatText)
  {
    if rec.sessionId == "" {
      return Fail("session_id not provided");
    }
    o := SetProcessingStatus(store, rec.sessionId, DiagnosisStarted, "");
    if o.Fail? {
      return;
    }
    var g := GenerateDiagnosisReport(store, caps, rec, floatText);
    if g.Failure? {
      return Fail(g.error);
    }
    o := SaveAndFinishMethod(store, rec.sessionId, g.value);
  }
}
