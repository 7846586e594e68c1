/** The external collaborators the stages call: HTTP download, speech to text,
    the language-model chains, and the embedding/similarity searches. Each is a
    function from its input to `Success(value)` or `Failure(str(e))`, so a call
    with the same input is assumed to give the same answer. */
module Oracles {
  import opened Wrappers
  import opened MedicalExtractionModel
  import opened ClinicalRecordModel

  /** The response of `requests.get`: status code, reason phrase and body. */
  datatype HttpResponse = HttpResponse(statusCode: int, reason: string, content: seq<bv8>)

  /** The in-memory audio file handed to the transcriber, with its file name. */
  datatype AudioFile = AudioFile(content: seq<bv8>, name: string)

  /** The verbose transcription response: text, detected language, duration in seconds. */
  datatype WhisperResult = WhisperResult(text: string, language: string, duration: real)

  /** The four severity archetypes indexed for symptom classification. */
  datatype SeverityLevel = Mild | Moderate | Severe | Critical

  /** A hit of `similarity_search_with_score`: which archetype, and the score
      the vector store reports for it. */
  datatype ScoredReference = ScoredReference(level: SeverityLevel, score: real)

  /** The structured output of the first diagnosis chain. */
  datatype DiagnosisList = DiagnosisList(
    summary: string,
    probabilities: seq<DiagnosisProbability>,
    conclusion: string)

  /** The variables of the diagnosis prompt. */
  datatype DiagnosisPrompt = DiagnosisPrompt(
    knowledgeBase: string,
    summary: Option<string>,
    patientInfo: PatientInfo,
    reasonForVisit: string,
    symptomsDetails: string)

  /** What fills one slot of the report-composition prompt. */
  datatype PromptSlot =
    | DiagnosisSlot(diagnosis: DiagnosisList)
    | PlanText(plan: string)
    | PlanMapping(treatmentPlan: string)   // the mapping {"treatment_plan": plan}

  datatype ReportPrompt = ReportPrompt(diagnosisOutput: PromptSlot, treatmentPlan: PromptSlot)

  /** The single-call report of the deployed diagnosis variant. */
  datatype ReportOutput = ReportOutput(report: string, probabilities: seq<DiagnosisProbability>)

  datatype LegacyPrompt = LegacyPrompt(
    medicalContext: string,
    summary: Option<string>,
    patientInfo: PatientInfo,
    reasonForVisit: string,
    symptomsDetails: string)

  datatype Capabilities = Capabilities(
    fetch: string -> Result<HttpResponse>,
    transcribe: (AudioFile, string) -> Result<WhisperResult>,
    extract: Option<string> -> Result<MedicalExtraction>,
    indexSeverity: Outcome,
    searchSeverity: string -> Result<seq<ScoredReference>>,
    indexKnowledge: Outcome,
    searchKnowledge: string -> Result<seq<string>>,
    diagnose: DiagnosisPrompt -> Result<DiagnosisList>,
    planTreatment: DiagnosisList -> Result<string>,
    composeReport: ReportPrompt -> Result<string>,
    legacyReport: LegacyPrompt -> Result<ReportOutput>)
}
