/** Store operations on `clinical_record/{session_id}`. */
module ClinicalRecordRepository {
  import opened Wrappers
  import opened Documents
  import opened ClinicalRecordModel
  import opened Store

  function ClinicalRecordKey(sessionId: string): Key {
    Key(ClinicalRecordCollection, sessionId)
  }

  /** `save_clinical_record`: a whole-document `set` of `model_dump()` under
      the record's own session id. No timestamp is added, so the stored
      document validates back to exactly the record. */
  function SaveClinicalRecordWrite(r: ClinicalRecord): (w: Write)
    ensures w.Set? && w.key == ClinicalRecordKey(r.sessionId)
  {
    Set(ClinicalRecordKey(r.sessionId), DumpClinicalRecord(r))
  }

  /** The saved document validates back to exactly the record. */
  lemma SavedRecordParses(r: ClinicalRecord)
    ensures ParseClinicalRecord(SaveClinicalRecordWrite(r).doc) == Success(r)
  {
    ParseDumpClinicalRecord(r);
  }

  method SaveClinicalRecord(store: RecordStore, r: ClinicalRecord) returns (o: Outcome)
    modifies store
    ensures (store.State(), o) == Apply(old(store.State()), SaveClinicalRecordWrite(r))
  {
    o := store.Write(SaveClinicalRecordWrite(r));
  }

  /** `save_diagnosis_report`: an update of exactly `diagnosis_report`,
      `diagnosis_probability` and `updated_at`, so the report and the
      probabilities land in one write or not at all. */
  function DiagnosisReportWrite(sessionId: string, report: string, probabilities: seq<DiagnosisProbability>): (w: Write)
    ensures w.Update? && w.key == ClinicalRecordKey(sessionId)
    ensures w.fields.Keys == {"diagnosis_report", "diagnosis_probability", "updated_at"}
    ensures w.fields["diagnosis_report"] == Str(report)
    ensures w.fields["diagnosis_probability"].List?
    ensures ParseDiagnoses(w.fields["diagnosis_probability"].items) == Success(probabilities)
  {
    ParseDumpDiagnoses(probabilities);
    Update(ClinicalRecordKey(sessionId),
           map["diagnosis_report" := Str(report),
               "diagnosis_probability" := List(DumpDiagnoses(probabilities)),
               "updated_at" := Time(ServerTimestamp)])
  }

  method SaveDiagnosisReport(store: RecordStore, sessionId: string, report: string, probabilities: seq<DiagnosisProbability>)
    returns (o: Outcome)
    modifies store
    ensures (store.State(), o) == Apply(old(store.State()), DiagnosisReportWrite(sessionId, report, probabilities))
  {
    o := store.Write(DiagnosisReportWrite(sessionId, report, probabilities));
  }

  /** Saving a clinical record twice (a redelivered trigger) leaves one
      document under the key, equal to the last save, and touches nothing else. */
  lemma SaveClinicalRecordTwice(s: StoreState, r1: ClinicalRecord, r2: ClinicalRecord, k: Key)
    requires r1.sessionId == r2.sessionId && ClinicalRecordKey(r1.sessionId) !in s.down
    ensures var s2 := Apply(Apply(s, SaveClinicalRecordWrite(r1)).0, SaveClinicalRecordWrite(r2)).0;
      && ParseClinicalRecord(s2.docs[ClinicalRecordKey(r2.sessionId)]) == Success(r2)
      && (k != ClinicalRecordKey(r1.sessionId) ==> (k in s2.docs <==> k in s.docs) && (k in s.docs ==> s2.docs[k] == s.docs[k]))
  {
    var w1, w2 := SaveClinicalRecordWrite(r1), SaveClinicalRecordWrite(r2);
    SetTwiceKeepsLast(s, w1.key, w1.doc, w2.doc);
    SavedRecordParses(r2);
    ApplyFrame(s, w1, k);
    ApplyFrame(Apply(s, w1).0, w2, k);
  }
}
