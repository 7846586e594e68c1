/** `PatientInfo`, `Symptom` and `MedicalExtraction`: the structured output of
    the extraction model call. */
module MedicalExtractionModel {
  import opened Wrappers
  import opened Documents

  /** All six fields optional, default None; `age` is an unconstrained int. */
  datatype PatientInfo = PatientInfo(
    name: Option<string>,
    age: Option<int>,
    idNumber: Option<string>,
    dateOfBirth: Option<string>,
    gender: Option<string>,
    nationality: Option<string>)

  /** `name` is required; `duration` and `intensity` must be supplied but may be None. */
  datatype Symptom = Symptom(name: string, duration: Option<string>, intensity: Option<string>)

  /** All four fields must be supplied but may be None. */
  datatype MedicalExtraction = MedicalExtraction(
    summary: Option<string>,
    patientInfo: Option<PatientInfo>,
    symptoms: Option<seq<Symptom>>,
    reasonForVisit: Option<string>)

  function EmptyPatientInfo(): (p: PatientInfo)
    ensures p.name == p.idNumber == p.dateOfBirth == p.gender == p.nationality == None
    ensures p.age == None
  {
    PatientInfo(None, None, None, None, None, None)
  }

  function DumpPatientInfo(p: PatientInfo): map<string, Value> {
    map[
      "name" := OptStr(p.name),
      "age" := OptInt(p.age),
      "id_number" := OptStr(p.idNumber),
      "date_of_birth" := OptStr(p.dateOfBirth),
      "gender" := OptStr(p.gender),
      "nationality" := OptStr(p.nationality)]
  }

  function ParsePatientInfo(d: map<string, Value>): Result<PatientInfo> {
    var name :- OptStrField(d, "name", true);
    var age :- OptIntField(d, "age");
    var idNumber :- OptStrField(d, "id_number", true);
    var dateOfBirth :- OptStrField(d, "date_of_birth", true);
    var gender :- OptStrField(d, "gender", true);
    var nationality :- OptStrField(d, "nationality", true);
    Success(PatientInfo(name, age, idNumber, dateOfBirth, gender, nationality))
  }

  lemma ParseDumpPatientInfo(p: PatientInfo)
    ensures ParsePatientInfo(DumpPatientInfo(p)) == Success(p)
  {
    var d := DumpPatientInfo(p);
    assert OptStrField(d, "name", true) == Success(p.name);
    assert OptIntField(d, "age") == Success(p.age);
    assert OptStrField(d, "id_number", true) == Success(p.idNumber);
    assert OptStrField(d, "date_of_birth", true) == Success(p.dateOfBirth);
    assert OptStrField(d, "gender", true) == Success(p.gender);
    assert OptStrField(d, "nationality", true) == Success(p.nationality);
  }

  /** No information about the patient at all, so the default record. */
  lemma ParsePatientInfoOfEmpty()
    ensures ParsePatientInfo(map[]) == Success(EmptyPatientInfo())
  {
  }

  function DumpSymptom(s: Symptom): map<string, Value> {
    map["name" := Str(s.name), "duration" := OptStr(s.duration), "intensity" := OptStr(s.intensity)]
  }

  function ParseSymptom(d: map<string, Value>): Result<Symptom> {
    var name :- ReqStr(d, "name");
    var duration :- OptStrField(d, "duration", false);
    var intensity :- OptStrField(d, "intensity", false);
    Success(Symptom(name, duration, intensity))
  }

  lemma ParseDumpSymptom(s: Symptom)
    ensures ParseSymptom(DumpSymptom(s)) == Success(s)
  {
    var d := DumpSymptom(s);
    assert ReqStr(d, "name") == Success(s.name);
    assert OptStrField(d, "duration", false) == Success(s.duration);
    assert OptStrField(d, "intensity", false) == Success(s.intensity);
  }

  function DumpSymptoms(ss: seq<Symptom>): (v: seq<Value>)
    ensures |v| == |ss|
  {
    if ss == [] then [] else [Obj(DumpSymptom(ss[0]))] + DumpSymptoms(ss[1..])
  }

  function ParseSymptoms(items: seq<Value>): Result<seq<Symptom>> {
    if items == [] then Success([])
    else if !items[0].Obj? then Failure("symptoms: list item should be an object")
    else
      var first :- ParseSymptom(items[0].fields);
      var rest :- ParseSymptoms(items[1..]);
      Success([first] + rest)
  }

  lemma {:induction false} ParseDumpSymptoms(ss: seq<Symptom>)
    ensures ParseSymptoms(DumpSymptoms(ss)) == Success(ss)
  {
    if ss != [] {
      var v := DumpSymptoms(ss);
      assert v[0] == Obj(DumpSymptom(ss[0])) && v[1..] == DumpSymptoms(ss[1..]);
      ParseDumpSymptom(ss[0]);
      ParseDumpSymptoms(ss[1..]);
      assert [ss[0]] + ss[1..] == ss;
    }
  }

  function OptPatientInfo(o: Option<PatientInfo>): Value {
    match o
    case None => Null
    case Some(p) => Obj(DumpPatientInfo(p))
  }

  function OptSymptoms(o: Option<seq<Symptom>>): Value {
    match o
    case None => Null
    case Some(ss) => List(DumpSymptoms(ss))
  }

  /** `patient_info` must be supplied; null or an object. */
  function PatientInfoField(d: map<string, Value>): Result<Option<PatientInfo>> {
    if "patient_info" !in d then Failure(MissingField("patient_info"))
    else match d["patient_info"]
      case Null => Success(None)
      case Obj(f) => (var p :- ParsePatientInfo(f); Success(Some(p)))
      case _ => Failure(WrongType("patient_info"))
  }

  /** `symptoms` must be supplied; null or a list of objects. */
  function SymptomsField(d: map<string, Value>): Result<Option<seq<Symptom>>> {
    if "symptoms" !in d then Failure(MissingField("symptoms"))
    else match d["symptoms"]
      case Null => Success(None)
      case List(items) => (var ss :- ParseSymptoms(items); Success(Some(ss)))
      case _ => Failure(WrongType("symptoms"))
  }

  lemma PatientInfoFieldOfDump(d: map<string, Value>, o: Option<PatientInfo>)
    requires "patient_info" in d && d["patient_info"] == OptPatientInfo(o)
    ensures PatientInfoField(d) == Success(o)
  {
    if o.Some? { ParseDumpPatientInfo(o.value); }
  }

  lemma SymptomsFieldOfDump(d: map<string, Value>, o: Option<seq<Symptom>>)
    requires "symptoms" in d && d["symptoms"] == OptSymptoms(o)
    ensures SymptomsField(d) == Success(o)
  {
    if o.Some? { ParseDumpSymptoms(o.value); }
  }
}
