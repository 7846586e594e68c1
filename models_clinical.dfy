/** `DiagnosisProbability`, `ClassifiedSymptoms` and `ClinicalRecord`. */
module ClinicalRecordModel {
  import opened Wrappers
  import opened Documents
  import opened MedicalExtractionModel

  /** Only `name` is required; the rest default to None. */
  datatype DiagnosisProbability = DiagnosisProbability(
    name: string,
    probability: Option<real>,
    reasoning: Option<string>,
    symptoms: Option<seq<string>>)

  /** `name` and `confidence_score` are required; `intensity`, `severity` and
      `duration` must be supplied but may be None. The score is described as
      lying in 0..1 but no range is enforced. */
  datatype ClassifiedSymptoms = ClassifiedSymptoms(
    name: string,
    intensity: Option<string>,
    severity: Option<string>,
    duration: Option<string>,
    confidenceScore: real)

  /** The MedicalExtraction fields, then a required `session_id` and a
      required-but-nullable `classified_symptoms`; the diagnosis fields and
      the timestamps default to None. */
  datatype ClinicalRecord = ClinicalRecord(
    summary: Option<string>,
    patientInfo: Option<PatientInfo>,
    symptoms: Option<seq<Symptom>>,
    reasonForVisit: Option<string>,
    sessionId: string,
    classifiedSymptoms: Option<seq<ClassifiedSymptoms>>,
    diagnosisReport: Option<string>,
    diagnosis: Option<seq<DiagnosisProbability>>,
    createdAt: Option<Timestamp>,
    updatedAt: Option<Timestamp>)

  /** The MedicalExtraction a clinical record extends. */
  function ExtractionPart(r: ClinicalRecord): MedicalExtraction {
    MedicalExtraction(r.summary, r.patientInfo, r.symptoms, r.reasonForVisit)
  }

  /** `ClinicalRecord(**extraction.model_dump(), session_id=..., classified_symptoms=...)`:
      every extraction field is kept and only the session id and the classified
      symptoms are added; everything else takes its default. */
  function FromExtraction(m: MedicalExtraction, sessionId: string, classified: seq<ClassifiedSymptoms>): (r: ClinicalRecord)
    ensures ExtractionPart(r) == m
    ensures r.sessionId == sessionId && r.classifiedSymptoms == Some(classified)
    ensures r.diagnosisReport == None && r.diagnosis == None
    ensures r.createdAt == None && r.updatedAt == None
  {
    ClinicalRecord(m.summary, m.patientInfo, m.symptoms, m.reasonForVisit, sessionId,
                   Some(classified), None, None, None, None)
  }

  // ---- model_dump and validation ----

  function DumpDiagnosisProbability(p: DiagnosisProbability): map<string, Value> {
    map[
      "name" := Str(p.name),
      "probability" := OptNum(p.probability),
      "reasoning" := OptStr(p.reasoning),
      "symptoms" := OptStrList(p.symptoms)]
  }

  function ParseDiagnosisProbability(d: map<string, Value>): Result<DiagnosisProbability> {
    var name :- ReqStr(d, "name");
    var probability :- OptNumField(d, "probability");
    var reasoning :- OptStrField(d, "reasoning", true);
    var symptoms :- OptStrListField(d, "symptoms");
    Success(DiagnosisProbability(name, probability, reasoning, symptoms))
  }

  lemma ParseDumpDiagnosisProbability(p: DiagnosisProbability)
    ensures ParseDiagnosisProbability(DumpDiagnosisProbability(p)) == Success(p)
  {
    var d := DumpDiagnosisProbability(p);
    assert ReqStr(d, "name") == Success(p.name);
    assert OptNumField(d, "probability") == Success(p.probability);
    assert OptStrField(d, "reasoning", true) == Success(p.reasoning);
    if p.symptoms.Some? { StrItemsOfStrList(p.symptoms.value); }
    assert OptStrListField(d, "symptoms") == Success(p.symptoms);
  }

  function DumpDiagnoses(ps: seq<DiagnosisProbability>): (v: seq<Value>)
    ensures |v| == |ps|
  {
    if ps == [] then [] else [Obj(DumpDiagnosisProbability(ps[0]))] + DumpDiagnoses(ps[1..])
  }

  function ParseDiagnoses(items: seq<Value>): Result<seq<DiagnosisProbability>> {
    if items == [] then Success([])
    else if !items[0].Obj? then Failure("diagnosis: list item should be an object")
    else
      var first :- ParseDiagnosisProbability(items[0].fields);
      var rest :- ParseDiagnoses(items[1..]);
      Success([first] + rest)
  }

  lemma {:induction false} ParseDumpDiagnoses(ps: seq<DiagnosisProbability>)
    ensures ParseDiagnoses(DumpDiagnoses(ps)) == Success(ps)
  {
    if ps != [] {
      var v := DumpDiagnoses(ps);
      assert v[0] == Obj(DumpDiagnosisProbability(ps[0])) && v[1..] == DumpDiagnoses(ps[1..]);
      ParseDumpDiagnosisProbability(ps[0]);
      ParseDumpDiagnoses(ps[1..]);
      assert [ps[0]] + ps[1..] == ps;
    }
  }

  function DumpClassified(c: ClassifiedSymptoms): map<string, Value> {
    map[
      "name" := Str(c.name),
      "intensity" := OptStr(c.intensity),
      "severity" := OptStr(c.severity),
      "duration" := OptStr(c.duration),
      "confidence_score" := Num(c.confidenceScore)]
  }

  function ParseClassified(d: map<string, Value>): Result<ClassifiedSymptoms> {
    var name :- ReqStr(d, "name");
    var intensity :- OptStrField(d, "intensity", false);
    var severity :- OptStrField(d, "severity", false);
    var duration :- OptStrField(d, "duration", false);
    var score :- ReqNum(d, "confidence_score");
    Success(ClassifiedSymptoms(name, intensity, severity, duration, score))
  }

  lemma ParseDumpClassified(c: ClassifiedSymptoms)
    ensures ParseClassified(DumpClassified(c)) == Success(c)
  {
    var d := DumpClassified(c);
    assert ReqStr(d, "name") == Success(c.name);
    assert OptStrField(d, "intensity", false) == Success(c.intensity);
    assert OptStrField(d, "severity", false) == Success(c.severity);
    assert OptStrField(d, "duration", false) == Success(c.duration);
    assert ReqNum(d, "confidence_score") == Success(c.confidenceScore);
  }

  function DumpClassifiedList(cs: seq<ClassifiedSymptoms>): (v: seq<Value>)
    ensures |v| == |cs|
  {
    if cs == [] then [] else [Obj(DumpClassified(cs[0]))] + DumpClassifiedList(cs[1..])
  }

  function ParseClassifiedList(items: seq<Value>): Result<seq<ClassifiedSymptoms>> {
    if items == [] then Success([])
    else if !items[0].Obj? then Failure("classified_symptoms: list item should be an object")
    else
      var first :- ParseClassified(items[0].fields);
      var rest :- ParseClassifiedList(items[1..]);
      Success([first] + rest)
  }

  lemma {:induction false} ParseDumpClassifiedList(cs: seq<ClassifiedSymptoms>)
    ensures ParseClassifiedList(DumpClassifiedList(cs)) == Success(cs)
  {
    if cs != [] {
      var v := DumpClassifiedList(cs);
      assert v[0] == Obj(DumpClassified(cs[0])) && v[1..] == DumpClassifiedList(cs[1..]);
      ParseDumpClassified(cs[0]);
      ParseDumpClassifiedList(cs[1..]);
      assert [cs[0]] + cs[1..] == cs;
    }
  }

  function OptClassified(o: Option<seq<ClassifiedSymptoms>>): Value {
    match o
    case None => Null
    case Some(cs) => List(DumpClassifiedList(cs))
  }

  function OptDiagnoses(o: Option<seq<DiagnosisProbability>>): Value {
    match o
    case None => Null
    case Some(ps) => List(DumpDiagnoses(ps))
  }

  /** `model_dump()` of a clinical record: one entry per declared field. */
  function DumpClinicalRecord(r: ClinicalRecord): (d: Document)
    ensures d.Keys == {"summary", "patient_info", "symptoms", "reason_for_visit", "session_id",
                       "classified_symptoms", "diagnosis_report", "diagnosis", "created_at", "updated_at"}
    ensures d["session_id"] == Str(r.sessionId)
  {
    map[
      "summary" := OptStr(r.summary),
      "patient_info" := OptPatientInfo(r.patientInfo),
      "symptoms" := OptSymptoms(r.symptoms),
      "reason_for_visit" := OptStr(r.reasonForVisit),
      "session_id" := Str(r.sessionId),
      "classified_symptoms" := OptClassified(r.classifiedSymptoms),
      "diagnosis_report" := OptStr(r.diagnosisReport),
      "diagnosis" := OptDiagnoses(r.diagnosis),
      "created_at" := OptTime(r.createdAt),
      "updated_at" := OptTime(r.updatedAt)]
  }

  /** `classified_symptoms` must be supplied; null or a list of objects. */
  function ClassifiedField(d: Document): Result<Option<seq<ClassifiedSymptoms>>> {
    if "classified_symptoms" !in d then Failure(MissingField("classified_symptoms"))
    else match d["classified_symptoms"]
      case Null => Success(None)
      case List(items) => (var cs :- ParseClassifiedList(items); Success(Some(cs)))
      case _ => Failure(WrongType("classified_symptoms"))
  }

  /** `diagnosis` defaults to None. */
  function DiagnosesField(d: Document): Result<Option<seq<DiagnosisProbability>>> {
    if "diagnosis" !in d then Success(None)
    else match d["diagnosis"]
      case Null => Success(None)
      case List(items) => (var ps :- ParseDiagnoses(items); Success(Some(ps)))
      case _ => Failure(WrongType("diagnosis"))
  }

  /** The four inherited MedicalExtraction fields, each of which must be supplied. */
  function ParseExtractionFields(d: Document): Result<MedicalExtraction> {
    var summary :- OptStrField(d, "summary", false);
    var patientInfo :- PatientInfoField(d);
    var symptoms :- SymptomsField(d);
    var reason :- OptStrField(d, "reason_for_visit", false);
    Success(MedicalExtraction(summary, patientInfo, symptoms, reason))
  }

  lemma ExtractionFieldsOfDump(r: ClinicalRecord)
    ensures ParseExtractionFields(DumpClinicalRecord(r)) == Success(ExtractionPart(r))
  {
    var d := DumpClinicalRecord(r);
    assert OptStrField(d, "summary", false) == Success(r.summary);
    PatientInfoFieldOfDump(d, r.patientInfo);
    SymptomsFieldOfDump(d, r.symptoms);
    assert OptStrField(d, "reason_for_visit", false) == Success(r.reasonForVisit);
  }

  /** `ClinicalRecord(**data)`: validation of a stored clinical record; unknown
      fields (such as `diagnosis_probability`) are ignored. */
  function ParseClinicalRecord(d: Document): (r: Result<ClinicalRecord>)
    ensures r.Success? ==> Get(d, "session_id") == Str(r.value.sessionId)
  {
    var m :- ParseExtractionFields(d);
    var sessionId :- ReqStr(d, "session_id");
    var classified :- ClassifiedField(d);
    var report :- OptStrField(d, "diagnosis_report", true);
    var diagnosis :- DiagnosesField(d);
    var createdAt :- OptTimeField(d, "created_at");
    var updatedAt :- OptTimeField(d, "updated_at");
    Success(ClinicalRecord(m.summary, m.patientInfo, m.symptoms, m.reasonForVisit, sessionId,
                           classified, report, diagnosis, createdAt, updatedAt))
  }

  lemma DumpClassifiedField(r: ClinicalRecord)
    ensures ClassifiedField(DumpClinicalRecord(r)) == Success(r.classifiedSymptoms)
  {
    var d := DumpClinicalRecord(r);
    assert d["classified_symptoms"] == OptClassified(r.classifiedSymptoms);
    if r.classifiedSymptoms.Some? { ParseDumpClassifiedList(r.classifiedSymptoms.value); }
  }

  lemma DumpDiagnosesField(r: ClinicalRecord)
    ensures DiagnosesField(DumpClinicalRecord(r)) == Success(r.diagnosis)
  {
    var d := DumpClinicalRecord(r);
    assert d["diagnosis"] == OptDiagnoses(r.diagnosis);
    if r.diagnosis.Some? { ParseDumpDiagnoses(r.diagnosis.value); }
  }

  lemma DumpScalarFields(r: ClinicalRecord)
    ensures var d := DumpClinicalRecord(r);
      && ReqStr(d, "session_id") == Success(r.sessionId)
      && OptStrField(d, "diagnosis_report", true) == Success(r.diagnosisReport)
      && OptTimeField(d, "created_at") == Success(r.createdAt)
      && OptTimeField(d, "updated_at") == Success(r.updatedAt)
  {
    var d := DumpClinicalRecord(r);
    assert d["diagnosis_report"] == OptStr(r.diagnosisReport);
    assert d["created_at"] == OptTime(r.createdAt);
    assert d["updated_at"] == OptTime(r.updatedAt);
  }

  /** Validating a dumped clinical record gives the record back. */
  lemma ParseDumpClinicalRecord(r: ClinicalRecord)
    ensures ParseClinicalRecord(DumpClinicalRecord(r)) == Success(r)
  {
    ExtractionFieldsOfDump(r);
    DumpClassifiedField(r);
    DumpDiagnosesField(r);
    DumpScalarFields(r);
  }
}
