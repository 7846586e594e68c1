/** `MedicalInfoExtractor`: extract structured information from a finished
    transcription, classify each symptom's severity against four reference
    descriptions, save the clinical record, and keep the transcription's
    status up to date. `process` never raises. */
module MedicalInfoExtractor {
  import opened Wrappers
  import opened Documents
  import opened TranscriptionModel
  import opened MedicalExtractionModel
  import opened ClinicalRecordModel
  import opened Store
  import opened Oracles
  import opened TranscriptionRepository
  import opened ClinicalRecordRepository

  // ---- severity classification ----

  /** The `severity` metadata of each reference document. */
  function SeverityText(l: SeverityLevel): string {
    match l
    case Mild => "mild"
    case Moderate => "moderate"
    case Severe => "severe"
    case Critical => "critical"
  }

  /** The reference description indexed for each level. */
  function ReferenceText(l: SeverityLevel): string {
    match l
    case Mild => "Minor discomfort, slight symptoms, minimal impact on daily activities, barely noticeable"
    case Moderate => "Noticeable discomfort, some impact on daily activities, manageable symptoms, requires attention"
    case Severe => "Significant discomfort, major impact on daily activities, intense symptoms, major limitations"
    case Critical => "Life-threatening, emergency symptoms, extreme discomfort, requires urgent medical intervention"
  }

  predicate IsSeverityText(v: string) {
    v == "mild" || v == "moderate" || v == "severe" || v == "critical"
  }

  /** The query sent for a symptom: its name, and " lasting <duration>" when
      the duration is a non-empty string. */
  function QueryText(sym: Symptom): string {
    if TruthyStr(sym.duration) then sym.name + " lasting " + sym.duration.value else sym.name
  }

  /** `min(results, key=score)`: the index of the first hit with the lowest score. */
  function FirstMinIndex(hits: seq<ScoredReference>): (k: nat)
    requires hits != []
    ensures k < |hits|
  {
    if |hits| == 1 then 0
    else
      var b := 1 + FirstMinIndex(hits[1..]);
      if hits[b].score < hits[0].score then b else 0
  }

  /** The chosen hit has the lowest score, and every hit before it scores higher. */
  lemma {:induction false} FirstMinIndexIsFirstMinimum(hits: seq<ScoredReference>)
    requires hits != []
    ensures forall j :: 0 <= j < |hits| ==> hits[FirstMinIndex(hits)].score <= hits[j].score
    ensures forall j :: 0 <= j < FirstMinIndex(hits) ==> hits[j].score > hits[FirstMinIndex(hits)].score
  {
    if |hits| > 1 {
      FirstMinIndexIsFirstMinimum(hits[1..]);
      assert forall j :: 1 <= j < |hits| ==> hits[j] == hits[1..][j - 1];
    }
  }

  /** `min` of an empty sequence raises ValueError. */
  function BestMatch(hits: seq<ScoredReference>): (r: Result<ScoredReference>)
    ensures r.Failure? <==> hits == []
    ensures r.Failure? ==> r.error == "min() arg is an empty sequence"
    ensures r.Success? ==> r.value == hits[FirstMinIndex(hits)]
  {
    if hits == [] then Failure("min() arg is an empty sequence") else Success(hits[FirstMinIndex(hits)])
  }

  /** `_symptoms_severity_classification` for one symptom. */
  function ClassifyOne(caps: Capabilities, sym: Symptom): (r: Result<ClassifiedSymptoms>)
  {
    var hits :- caps.searchSeverity(QueryText(sym));
    var best :- BestMatch(hits);
    Success(ClassifiedSymptoms(sym.name, sym.intensity, Some(SeverityText(best.level)), sym.duration, 1.0 - best.score))
  }

  /** One symptom classified: its own name, intensity and duration, the
      severity of the first lowest-scoring reference (one of the four levels),
      and one minus that score, which is then the highest of one minus any
      hit's score. It fails exactly when the search fails or finds nothing. */
  lemma ClassifyOneMeaning(caps: Capabilities, sym: Symptom)
    ensures var r := ClassifyOne(caps, sym);
      var found := caps.searchSeverity(QueryText(sym));
      && (r.Failure? <==> found.Failure? || found.value == [])
      && (r.Success? ==>
            var hits := found.value;
            var best := hits[FirstMinIndex(hits)];
            && r.value.name == sym.name && r.value.intensity == sym.intensity && r.value.duration == sym.duration
            && r.value.severity == Some(SeverityText(best.level))
            && IsSeverityText(r.value.severity.value)
            && r.value.confidenceScore == 1.0 - best.score
            && (forall j :: 0 <= j < |hits| ==> r.value.confidenceScore >= 1.0 - hits[j].score))
  {
    var found := caps.searchSeverity(QueryText(sym));
    if found.Success? && found.value != [] {
      FirstMinIndexIsFirstMinimum(found.value);
    }
  }

  /** The searches made for a list of symptoms, in order. */
  function Searches(syms: seq<Symptom>): (r: seq<Event>)
    ensures |r| == |syms|
  {
    if syms == [] then [] else [Call(SearchSeverity(QueryText(syms[0])))] + Searches(syms[1..])
  }

  /** The searches of a list are those of its elements, one each, in order. */
  lemma {:induction false} SearchesAt(syms: seq<Symptom>, i: nat)
    requires i < |syms|
    ensures Searches(syms)[i] == Call(SearchSeverity(QueryText(syms[i])))
  {
    if i > 0 {
      SearchesAt(syms[1..], i - 1);
    }
  }

  lemma SearchesSnoc(syms: seq<Symptom>, i: nat)
    requires i < |syms|
    ensures Searches(syms[..i + 1]) == Searches(syms[..i]) + [Call(SearchSeverity(QueryText(syms[i])))]
  {
    forall k | 0 <= k < i + 1
      ensures Searches(syms[..i + 1])[k] == (Searches(syms[..i]) + [Call(SearchSeverity(QueryText(syms[i])))])[k]
    {
      SearchesAt(syms[..i + 1], k);
      if k < i {
        SearchesAt(syms[..i], k);
      }
    }
  }

  lemma SearchesPrefix(syms: seq<Symptom>, n: nat)
    requires n <= |syms|
    ensures Searches(syms)[..n] == Searches(syms[..n])
  {
    forall k | 0 <= k < n
      ensures Searches(syms)[k] == Searches(syms[..n])[k]
    {
      SearchesAt(syms, k);
      SearchesAt(syms[..n], k);
    }
  }

  /** The classifications of a list of symptoms, stopping at the first
      failure. On success there is one per symptom, each the classification
      of that symptom alone. */
  function ClassifyList(caps: Capabilities, syms: seq<Symptom>): (r: Result<seq<ClassifiedSymptoms>>)
    ensures r.Success? ==>
      && |r.value| == |syms|
      && forall i :: 0 <= i < |syms| ==> ClassifyOne(caps, syms[i]) == Success(r.value[i])
  {
    if syms == [] then Success([])
    else
      var c := ClassifyOne(caps, syms[0]);
      if c.Failure? then Failure(c.error)
      else
        var rest := ClassifyList(caps, syms[1..]);
        if rest.Failure? then Failure(rest.error) else Success([c.value] + rest.value)
  }

  /** How many searches the loop makes: all of them on success, and up to and
      including the first symptom whose classification fails otherwise. */
  function SearchesMade(caps: Capabilities, syms: seq<Symptom>): (n: nat)
    ensures n <= |syms|
    ensures ClassifyList(caps, syms).Success? ==> n == |syms|
  {
    if syms == [] then 0
    else if ClassifyOne(caps, syms[0]).Failure? then 1
    else 1 + SearchesMade(caps, syms[1..])
  }

  /** The loop stops right after the first symptom whose classification
      fails, and runs to the end exactly when none fails. */
  lemma {:induction false} SearchesMadeStopsAtFirstFailure(caps: Capabilities, syms: seq<Symptom>)
    ensures var n := SearchesMade(caps, syms);
      && (ClassifyList(caps, syms).Success? <==> n == |syms| && forall i :: 0 <= i < |syms| ==> ClassifyOne(caps, syms[i]).Success?)
      && (ClassifyList(caps, syms).Failure? ==>
            && 0 < n && ClassifyOne(caps, syms[n - 1]).Failure?
            && forall i :: 0 <= i < n - 1 ==> ClassifyOne(caps, syms[i]).Success?)
  {
    if syms != [] && ClassifyOne(caps, syms[0]).Success? {
      SearchesMadeStopsAtFirstFailure(caps, syms[1..]);
      assert forall i :: 1 <= i < |syms| ==> syms[i] == syms[1..][i - 1];
    }
  }

  /** The reference index is built, and the searches made, only when the
      extraction found at least one symptom. */
  function HasSymptoms(m: MedicalExtraction): bool {
    m.symptoms.Some? && |m.symptoms.value| > 0
  }

  function ClassificationCalls(m: MedicalExtraction): seq<Event> {
    if HasSymptoms(m) then [Call(IndexSeverityReferences)] + Searches(m.symptoms.value) else []
  }

  lemma CallsPrefix(j: seq<Event>, m: MedicalExtraction, n: nat)
    requires HasSymptoms(m) && n <= |m.symptoms.value|
    ensures |ClassificationCalls(m)| == 1 + |m.symptoms.value|
    ensures (j + [Call(IndexSeverityReferences)]) + Searches(m.symptoms.value[..n]) == j + ClassificationCalls(m)[..1 + n]
  {
    var syms := m.symptoms.value;
    var added := Searches(syms[..n]);
    SearchesPrefix(syms, n);
    assert ClassificationCalls(m)[..1 + n] == [Call(IndexSeverityReferences)] + added;
  }

  /** `_symptoms_severity_classification` on the store's value: it changes no
      document and makes a prefix of the index-then-search calls, all of them
      on success. */
  function ClassificationSpec(s: StoreState, caps: Capabilities, m: MedicalExtraction)
    : (r: (StoreState, Result<seq<ClassifiedSymptoms>>))
    ensures r.0.docs == s.docs && r.0.down == s.down
    ensures |s.journal| <= |r.0.journal| <= |s.journal| + |ClassificationCalls(m)|
    ensures r.0.journal == s.journal + ClassificationCalls(m)[..|r.0.journal| - |s.journal|]
    ensures !HasSymptoms(m) ==> r == (s, Success([]))
    ensures r.1.Success? ==> r.0.journal == s.journal + ClassificationCalls(m)
  {
    if !HasSymptoms(m) then (s, Success([]))
    else
      var s1 := Record(s, IndexSeverityReferences);
      if caps.indexSeverity.Fail? then
        CallsPrefix(s.journal, m, 0);
        assert m.symptoms.value[..0] == [];
        (s1, Failure(caps.indexSeverity.error))
      else
        var syms := m.symptoms.value;
        var n := SearchesMade(caps, syms);
        var cls := ClassifyList(caps, syms);
        CallsPrefix(s.journal, m, n);
        assert cls.Success? ==> syms[..n] == syms;
        (s1.(journal := s1.journal + Searches(syms[..n])), cls)
  }

  /** When every symptom before `i` classifies and the one at `i` does not,
      the run fails with that symptom's error after `i + 1` searches. */
  lemma {:induction false} FirstFailure(caps: Capabilities, syms: seq<Symptom>, i: nat)
    requires i < |syms| && ClassifyOne(caps, syms[i]).Failure?
    requires forall k :: 0 <= k < i ==> ClassifyOne(caps, syms[k]).Success?
    ensures ClassifyList(caps, syms) == Failure(ClassifyOne(caps, syms[i]).error)
    ensures SearchesMade(caps, syms) == i + 1
  {
    if i > 0 {
      FirstFailure(caps, syms[1..], i - 1);
    }
  }

  /** When every symptom classifies, the run returns those classifications. */
  lemma {:induction false} AllClassified(caps: Capabilities, syms: seq<Symptom>, done: seq<ClassifiedSymptoms>)
    requires |done| == |syms|
    requires forall k :: 0 <= k < |syms| ==> ClassifyOne(caps, syms[k]) == Success(done[k])
    ensures ClassifyList(caps, syms) == Success(done)
  {
    if syms != [] {
      AllClassified(caps, syms[1..], done[1..]);
      assert done == [done[0]] + done[1..];
    }
  }

  /** The body of the loop: one search, then the classification of that symptom. */
  method ClassifySymptom(store: RecordStore, caps: Capabilities, sym: Symptom) returns (c: Result<ClassifiedSymptoms>)
    modifies store
    ensures store.State() == Record(old(store.State()), SearchSeverity(QueryText(sym)))
    ensures c == ClassifyOne(caps, sym)
  {
    store.CallExternal(SearchSeverity(QueryText(sym)));
    c := ClassifyOne(caps, sym);
  }

  /** The loop of `_symptoms_severity_classification`, run against the store:
      one search per symptom until the first failure. */
  method ClassifyEachSymptom(store: RecordStore, caps: Capabilities, syms: seq<Symptom>)
    returns (r: Result<seq<ClassifiedSymptoms>>)
    modifies store
    ensures store.docs == old(store.docs) && store.down == old(store.down)
    ensures store.journal == old(store.journal) + Searches(syms[..SearchesMade(caps, syms)])
    ensures r == ClassifyList(caps, syms)
  {
    var classified: seq<ClassifiedSymptoms> := [];
    var i := 0;
    ghost var start := store.journal;
    while i < |syms|
      invariant 0 <= i <= |syms| && |classified| == i
      invariant forall k :: 0 <= k < i ==> ClassifyOne(caps, syms[k]) == Success(classified[k])
      invariant store.docs == old(store.docs) && store.down == old(store.down)
      invariant store.journal == start + Searches(syms[..i])
    {
      SearchesSnoc(syms, i);
      Assoc(start, Searches(syms[..i]), [Call(SearchSeverity(QueryText(syms[i])))]);
      var c := ClassifySymptom(store, caps, syms[i]);
      if c.Failure? {
        FirstFailure(caps, syms, i);
        return Failure(c.error);
      }
      classified := classified + [c.value];
      i := i + 1;
    }
    AllClassified(caps, syms, classified);
    assert syms[..i] == syms;
    r := Success(classified);
  }

  method SymptomsSeverityClassification(store: RecordStore, caps: Capabilities, m: MedicalExtraction)
    returns (r: Result<seq<ClassifiedSymptoms>>)
    modifies store
    ensures (store.State(), r) == ClassificationSpec(old(store.State()), caps, m)
  {
    if !HasSymptoms(m) {
      return Success([]);
    }
    store.CallExternal(IndexSeverityReferences);
    if caps.indexSeverity.Fail? {
      return Failure(caps.indexSeverity.error);
    }
    r := ClassifyEachSymptom(store, caps, m.symptoms.value);
  }


  /** The classifications `_symptoms_severity_classification` returns,
      independent of the store: none without symptoms, otherwise the index
      must build and then every symptom is classified. */
  function ClassifyResult(caps: Capabilities, m: MedicalExtraction): Result<seq<ClassifiedSymptoms>> {
    if !HasSymptoms(m) then Success([])
    else if caps.indexSeverity.Fail? then Failure(caps.indexSeverity.error)
    else ClassifyList(caps, m.symptoms.value)
  }

  lemma ClassificationSpecResult(s: StoreState, caps: Capabilities, m: MedicalExtraction)
    ensures ClassificationSpec(s, caps, m).1 == ClassifyResult(caps, m)
  {
  }

  // ---- process ----

  /** The status writes of the stage. */
  function Started(sessionId: string): Write {
    StatusWrite(sessionId, InformationExtractionStarted, "")
  }

  function Finished(sessionId: string): Write {
    StatusWrite(sessionId, InformationExtractionFinished, "")
  }

  /** The clinical record built from an extraction and its classifications. */
  function RecordOf(t: Transcription, m: MedicalExtraction, cls: seq<ClassifiedSymptoms>): ClinicalRecord {
    FromExtraction(m, t.sessionId, cls)
  }

  /** The save of the clinical record, then the FINISHED status: FINISHED is
      attempted only after the record was accepted. */
  function SaveAndFinish(s: StoreState, t: Transcription, rec: ClinicalRecord): (r: (StoreState, Outcome))
    requires rec.sessionId == t.sessionId
    ensures r.0.down == s.down
    ensures |s.journal| < |r.0.journal| && r.0.journal[..|s.journal|] == s.journal
    ensures r.1.Pass? ==>
      && r.0.journal == s.journal + [Attempt(SaveClinicalRecordWrite(rec), true), Attempt(Finished(t.sessionId), true)]
      && ClinicalRecordKey(t.sessionId) in r.0.docs
      && r.0.docs[ClinicalRecordKey(t.sessionId)] == SaveClinicalRecordWrite(rec).doc
  {
    var w := SaveClinicalRecordWrite(rec);
    var (s4, o4) := Apply(s, w);
    if o4.Fail? then (s4, o4)
    else
      var f := Finished(t.sessionId);
      ApplyFrame(s4, f, w.key);
      var r := Apply(s4, f);
      assert r.0.journal == s.journal + [Attempt(w, true), Attempt(f, r.1.Pass?)];
      r
  }

  /** What a complete run does after STARTED: the extraction call, the
      classification calls, the accepted save and the accepted FINISHED status. */
  function Completed(t: Transcription, m: MedicalExtraction, rec: ClinicalRecord): seq<Event> {
    [Call(ExtractInformation)] + (ClassificationCalls(m) + SavedAndFinished(t, rec))
  }

  /** The events of a run that saved the record and finished. */
  function SavedAndFinished(t: Transcription, rec: ClinicalRecord): seq<Event> {
    [Attempt(SaveClinicalRecordWrite(rec), true), Attempt(Finished(t.sessionId), true)]
  }

  /** The save is always attempted first, and FINISHED is attempted exactly
      when the save was accepted. */
  lemma SaveBeforeFinished(s: StoreState, t: Transcription, rec: ClinicalRecord)
    requires rec.sessionId == t.sessionId
    ensures var r := SaveAndFinish(s, t, rec);
      && r.0.journal[|s.journal|] == Attempt(SaveClinicalRecordWrite(rec), Accepts(s, SaveClinicalRecordWrite(rec)))
      && |r.0.journal| == |s.journal| + 1 + (if Accepts(s, SaveClinicalRecordWrite(rec)) then 1 else 0)
  {
    var w := SaveClinicalRecordWrite(rec);
    var s4 := Apply(s, w).0;
    assert s4.journal[|s.journal|] == Attempt(w, Accepts(s, w));
  }

  /** The classification of an extraction, then the save and the FINISHED
      status. */
  function ClassifyAndSave(s: StoreState, caps: Capabilities, t: Transcription, m: MedicalExtraction)
    : (r: (StoreState, Outcome))
    ensures r.0.down == s.down
    ensures |s.journal| <= |r.0.journal| && r.0.journal[..|s.journal|] == s.journal
    ensures r.1.Pass? ==>
      && ClassifyResult(caps, m).Success?
      && var rec := RecordOf(t, m, ClassifyResult(caps, m).value);
      && r.0.journal == s.journal + (ClassificationCalls(m) + SavedAndFinished(t, rec))
      && ClinicalRecordKey(t.sessionId) in r.0.docs
      && r.0.docs[ClinicalRecordKey(t.sessionId)] == SaveClinicalRecordWrite(rec).doc
  {
    var (s3, cls) := ClassificationSpec(s, caps, m);
    ClassificationSpecResult(s, caps, m);
    if cls.Failure? then
      (s3, Fail(cls.error))
    else
      var rec := RecordOf(t, m, cls.value);
      var r := SaveAndFinish(s3, t, rec);
      assert r.0.journal[..|s3.journal|] == s3.journal;
      Assoc(s.journal, ClassificationCalls(m), SavedAndFinished(t, rec));
      r
  }

  /** Everything after the STARTED status was accepted. */
  function AfterStarted(s: StoreState, caps: Capabilities, t: Transcription): (r: (StoreState, Outcome))
    ensures r.0.down == s.down
    ensures |s.journal| < |r.0.journal| && r.0.journal[..|s.journal|] == s.journal
    ensures r.1.Pass? ==>
      && caps.extract(t.text).Success?
      && var m := caps.extract(t.text).value;
      && ClassifyResult(caps, m).Success?
      && var rec := RecordOf(t, m, ClassifyResult(caps, m).value);
      && r.0.journal == s.journal + Completed(t, m, rec)
      && ClinicalRecordKey(t.sessionId) in r.0.docs
      && r.0.docs[ClinicalRecordKey(t.sessionId)] == SaveClinicalRecordWrite(rec).doc
  {
    var s2 := Record(s, ExtractInformation);
    var m := caps.extract(t.text);
    if m.Failure? then (s2, Fail(m.error))
    else
      var r := ClassifyAndSave(s2, caps, t, m.value);
      assert r.0.journal[..|s2.journal|] == s2.journal;
      assert r.0.journal[..|s.journal|] == s.journal;
      if r.1.Pass? then
        var rec := RecordOf(t, m.value, ClassifyResult(caps, m.value).value);
        Assoc(s.journal, [Call(ExtractInformation)], ClassificationCalls(m.value) + SavedAndFinished(t, rec));
        r
      else
        r
  }

  /** Once STARTED is accepted, the first thing done is the extraction call. */
  lemma ExtractionCalledFirst(s: StoreState, caps: Capabilities, t: Transcription)
    ensures var r := AfterStarted(s, caps, t);
      |r.0.journal| > |s.journal| && r.0.journal[|s.journal|] == Call(ExtractInformation)
  {
    var s2 := Record(s, ExtractInformation);
    var m := caps.extract(t.text);
    if m.Success? {
      var r := ClassifyAndSave(s2, caps, t, m.value);
      assert r.0.journal[..|s2.journal|] == s2.journal;
      assert r.0.journal[|s.journal|] == s2.journal[|s.journal|];
    }
  }

  /** The body of the `try` in `process` on the store's value: the two
      assertions, the STARTED status, the extraction, the classification, the
      save of the clinical record, and the FINISHED status. The outcome is
      the first error raised. */
  function ExtractionSteps(s: StoreState, caps: Capabilities, t: Transcription): (r: (StoreState, Outcome))
    ensures r.0.down == s.down
    ensures t.sessionId == "" ==> r == (s, Fail("session_id is required"))
    ensures t.sessionId != "" && !TruthyStr(t.text) ==> r == (s, Fail("empty transcription"))
    ensures |s.journal| <= |r.0.journal| && r.0.journal[..|s.journal|] == s.journal
    ensures r.1.Pass? ==>
      && caps.extract(t.text).Success?
      && var m := caps.extract(t.text).value;
      && ClassifyResult(caps, m).Success?
      && var rec := RecordOf(t, m, ClassifyResult(caps, m).value);
      && r.0.journal == s.journal + ([Attempt(Started(t.sessionId), true)] + Completed(t, m, rec))
      && ClinicalRecordKey(t.sessionId) in r.0.docs
      && r.0.docs[ClinicalRecordKey(t.sessionId)] == SaveClinicalRecordWrite(rec).doc
  {
    if t.sessionId == "" then (s, Fail("session_id is required"))
    else if !TruthyStr(t.text) then (s, Fail("empty transcription"))
    else
      var (s1, o1) := Apply(s, Started(t.sessionId));
      if o1.Fail? then (s1, o1)
      else
        var r := AfterStarted(s1, caps, t);
        assert r.0.journal[..|s1.journal|] == s1.journal;
        assert r.0.journal[..|s.journal|] == s.journal;
        var m := caps.extract(t.text);
        var c := if m.Success? && ClassifyResult(caps, m.value).Success?
                 then Completed(t, m.value, RecordOf(t, m.value, ClassifyResult(caps, m.value).value)) else [];
        Assoc(s.journal, [Attempt(Started(t.sessionId), true)], c);
        r
  }

  /** Nothing external happens, and no document changes, before the
      STARTED status is accepted. */
  lemma StartedComesFirst(s: StoreState, caps: Capabilities, t: Transcription)
    ensures var r := ExtractionSteps(s, caps, t);
      && (|r.0.journal| > |s.journal| + 1 ==> r.0.journal[|s.journal|] == Attempt(Started(t.sessionId), true))
      && (|r.0.journal| <= |s.journal| + 1 ==> r.0.docs == s.docs)
  {
    if t.sessionId != "" && TruthyStr(t.text) {
      var (s1, o1) := Apply(s, Started(t.sessionId));
      if o1.Pass? {
        var r := AfterStarted(s1, caps, t);
        assert r.0.journal[..|s1.journal|] == s1.journal;
        assert r.0.journal[|s.journal|] == s1.journal[|s.journal|];
      }
    }
  }

  /** `process` on the store's value: the steps, then, on any error and when
      the session id is set, an attempt to record INFORMATION_EXTRACTION_ERROR
      with the error text, whose own failure is swallowed. */
  function ProcessSpec(s: StoreState, caps: Capabilities, t: Transcription): (r: StoreState)
    ensures r.down == s.down
    ensures t.sessionId == "" ==> r == s
    ensures var (s1, o) := ExtractionSteps(s, caps, t);
      && (o.Pass? ==> r == s1)
      && (o.Fail? && t.sessionId != "" ==>
            && r.journal == s1.journal + [Attempt(StatusWrite(t.sessionId, InformationExtractionError, o.error), Accepts(s1, StatusWrite(t.sessionId, InformationExtractionError, o.error)))]
            && (Accepts(s1, StatusWrite(t.sessionId, InformationExtractionError, o.error)) ==>
                  && TranscriptionKey(t.sessionId) in r.docs
                  && "status" in r.docs[TranscriptionKey(t.sessionId)] && "error_message" in r.docs[TranscriptionKey(t.sessionId)]
                  && r.docs[TranscriptionKey(t.sessionId)]["status"] == Str(StatusValue(InformationExtractionError))
                  && r.docs[TranscriptionKey(t.sessionId)]["error_message"] == Str(o.error)))
  {
    var (s1, o) := ExtractionSteps(s, caps, t);
    if o.Fail? && t.sessionId != "" then
      var w := StatusWrite(t.sessionId, InformationExtractionError, o.error);
      if Accepts(s1, w) then
        StatusWriteEffect(s1, t.sessionId, InformationExtractionError, o.error, "status");
        Apply(s1, w).0
      else Apply(s1, w).0
    else s1
  }

  lemma LastOf(a: seq<Event>, b: seq<Event>)
    requires b != []
    ensures (a + b)[|a + b| - 1] == b[|b| - 1]
  {
  }

  /** Every run with a session id ends with an attempt to record this
      stage's outcome: the accepted FINISHED status after a complete run, the
      ERROR status with the error text otherwise. */
  lemma {:induction false} ProcessEndsWithStageStatus(s: StoreState, caps: Capabilities, t: Transcription)
    requires t.sessionId != ""
    ensures var r := ProcessSpec(s, caps, t);
      var o := ExtractionSteps(s, caps, t).1;
      && |r.journal| > |s.journal|
      && (o.Pass? ==> r.journal[|r.journal| - 1] == Attempt(Finished(t.sessionId), true))
      && (o.Fail? ==> r.journal[|r.journal| - 1].Attempt?
                      && r.journal[|r.journal| - 1].write == StatusWrite(t.sessionId, InformationExtractionError, o.error))
  {
    var (s1, o) := ExtractionSteps(s, caps, t);
    if o.Pass? {
      var m := caps.extract(t.text).value;
      var rec := RecordOf(t, m, ClassifyResult(caps, m).value);
      var fin := [Attempt(SaveClinicalRecordWrite(rec), true), Attempt(Finished(t.sessionId), true)];
      LastOf(ClassificationCalls(m), fin);
      LastOf([Call(ExtractInformation)], ClassificationCalls(m) + fin);
      LastOf([Attempt(Started(t.sessionId), true)], Completed(t, m, rec));
      LastOf(s.journal, [Attempt(Started(t.sessionId), true)] + Completed(t, m, rec));
    }
  }

  /** An empty transcription is never sent for extraction: its only effect is
      the attempt to record the error. */
  lemma EmptyTextOnlyRecordsError(s: StoreState, caps: Capabilities, t: Transcription)
    requires t.sessionId != "" && !TruthyStr(t.text)
    ensures ProcessSpec(s, caps, t).journal
      == s.journal + [Attempt(StatusWrite(t.sessionId, InformationExtractionError, "empty transcription"),
                              Accepts(s, StatusWrite(t.sessionId, InformationExtractionError, "empty transcription")))]
  {
  }

  method ExtractMedicalInformation(store: RecordStore, caps: Capabilities, t: Transcription) returns (m: Result<MedicalExtraction>)
    modifies store
    ensures store.State() == Record(old(store.State()), ExtractInformation)
    ensures m == caps.extract(t.text)
  {
    store.CallExternal(ExtractInformation);
    m := caps.extract(t.text);
  }

  method Steps(store: RecordStore, caps: Capabilities, t: Transcription) returns (o: Outcome)
    modifies store
    ensures (store.State(), o) == ExtractionSteps(old(store.State()), caps, t)
  {
    if t.sessionId == "" {
      return Fail("session_id is required");
    }
    if !TruthyStr(t.text) {
      return Fail("empty transcription");
    }
    o := SetProcessingStatus(store, t.sessionId, InformationExtractionStarted, "");
    if o.Fail? {
      return;
    }
    o := AfterStartedMethod(store, caps, t);
  }

  method AfterStartedMethod(store: RecordStore, caps: Capabilities, t: Transcription) returns (o: Outcome)
    modifies store
    ensures (store.State(), o) == AfterStarted(old(store.State()), caps, t)
  {
    var m := ExtractMedicalInformation(store, caps, t);
    if m.Failure? {
      return Fail(m.error);
    }
    o := ClassifyAndSaveMethod(store, caps, t, m.value);
  }

  method ClassifyAndSaveMethod(store: RecordStore, caps: Capabilities, t: Transcription, m: MedicalExtraction)
    returns (o: Outcome)
    modifies store
    ensures (store.State(), o) == ClassifyAndSave(old(store.State()), caps, t, m)
  {
    var cls := SymptomsSeverityClassification(store, caps, m);
    if cls.Failure? {
      return Fail(cls.error);
    }
    o := SaveAndFinishMethod(store, t, RecordOf(t, m, cls.value));
  }

  method SaveAndFinishMethod(store: RecordStore, t: Transcription, rec: ClinicalRecord) returns (o: Outcome)
    requires rec.sessionId == t.sessionId
    modifies store
    ensures (store.State(), o) == SaveAndFinish(old(store.State()), t, rec)
  {
    o := SaveClinicalRecord(store, rec);
    if o.Fail? {
      return;
    }
    o := SetProcessingStatus(store, t.sessionId, InformationExtractionFinished, "");
  }

  method Process(store: RecordStore, caps: Capabilities, t: Transcription)
    modifies store
    ensures store.State() == ProcessSpec(old(store.State()), caps, t)
  {
    var o := Steps(store, caps, t);
    if o.Fail? && t.sessionId != "" {
      var _ := SetProcessingStatus(store, t.sessionId, InformationExtractionError, o.error);
    }
  }
}
