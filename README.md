# Clinical pipeline: status machine, stage handlers and status views

A model of the backend of a clinical-consultation pipeline built on Firebase
functions, and of the parts of its web client that derive what to show from
the pipeline's status.

Every session is one document in `transcriptions/{session_id}`, whose `status`
field moves through the `TranscriptionStatus` enum. The stages are linked by
document creation:

- `start_process` (HTTP) either queues an audio URL under `queue/{id}`, or
  stores a finished transcription for text submitted directly.
- The extraction stage is fired by a new transcription. It marks
  INFORMATION_EXTRACTION_STARTED, asks a language model for a structured
  `MedicalExtraction`, and classifies each symptom's severity by similarity
  search against four reference descriptions. It then saves a `ClinicalRecord`
  under `clinical_record/{id}` and marks INFORMATION_EXTRACTION_FINISHED.
- The diagnosis stage is fired by a new clinical record. It marks
  DIAGNOSIS_STARTED and retrieves knowledge for the record. It then chains
  three model calls (diagnoses, treatment plan, report), saves the report with
  the diagnoses and marks DIAGNOSIS_FINISHED.
- Every failure is turned into an `*_ERROR` status carrying the error text.

Two variants of the stages are modelled:

- the layered one (triggers, services, repositories);
- the older top-level modules: `audio_transcription.py`,
  `medical_information_extractor.py` and `diagnosis_generation.py`.

The model also states how the two variants differ. For example, the older
extraction handler records TRANSCRIPTION_ERROR and still sends an empty
transcription for extraction. The older diagnosis handler writes free-form
status strings that the enum does not accept.

How the model is built:

- **Store.** The store is a class, `Store.RecordStore`. It holds the
  documents, the keys whose writes currently fail, and a journal of every
  write attempt and every external call, in order.
- **Handlers.** Every handler and service is two things:
  - a function on the store's value, which states the outcome and the new
    store;
  - a method on `RecordStore`, proved equal to that function.
  The ordering guarantees of the status machine are lemmas about those
  functions. Examples: STARTED comes first, a success ends with the accepted
  FINISHED status, and a failure ends with an attempt at the error status.
- **External collaborators.** The HTTP download, the speech-to-text call, the
  language-model chains and the embedding searches are fields of
  `Oracles.Capabilities`. Each is a function from its input to `Success(value)`
  or `Failure(message)`. The session id that `uuid4` mints, and `str()` of a
  float, are parameters.
- **Validation.** Pydantic validation and `model_dump()` are modelled over a
  JSON-like `Documents.Value`, with round-trip lemmas for every record.
- **Web client.** It is modelled on the status strings it receives:
  - the status map;
  - the request body of a submission;
  - `getStepStatus` of the step indicator;
  - `getStatusText`, `getProgressPercentage` (computed once for "pending"
    and discarded, so no progress bar is displayed) and the four step marks
    of the processing panel;
  - `getSeverityValue`, `getSeverityColor` and the y-axis tick labels of the
    results view.

Modules follow the program: `models_*` (records), `repo_*` (repositories),
`service_*` (services), `trigger_*` (layered handlers), `legacy_*` (top-level
handlers), `frontend_*` (client). Shared pieces live in `documents`,
`record_store`, `oracles`, `text` and `wrappers`.

## Model

| member | source | states |
|---|---|---|
| Documents.StatusUpdate | backend/functions/repositories/transcription_repository.py:54-58 | a status update writes exactly `status`, `error_message` and `updated_at` (the server timestamp) |
| Documents.ReqStr | backend/functions/models/transcription.py:24 | a required `str` field validates exactly when present and a string, and returns that string |
| Documents.OptStrField | backend/functions/models/transcription.py:25-27 | an `Optional[str]` field validates when it is null or a string, and may be absent only when it has a default (then None) |
| Documents.OptNumField | backend/functions/models/transcription.py:28 | an `Optional[float]` field accepts null, a float, an int or a bool (as 1.0 or 0.0), and no other modelled value |
| Documents.ReqNum | backend/functions/models/clinical_record.py:21 | a required `float` field must be present and a float, an int or a bool, read as that number |
| Documents.OptIntField | backend/functions/models/medical_extraction.py:6 | an `Optional[int]` field accepts null, an int, a bool (as 1 or 0) or a float with no fractional part |
| Documents.OptTimeField | backend/functions/models/clinical_record.py:31-32 | an `Optional[datetime]` field accepts null or a stored timestamp |
| Documents.OptStrListField | backend/functions/models/clinical_record.py:14 | an `Optional[List[str]]` field that validates gives back the stored list |
| Documents.StrItems | backend/functions/models/clinical_record.py:14 | validated list items are exactly the stored strings |
| Documents.StrItemsOfStrList | backend/functions/models/clinical_record.py:14 | a dumped string list validates back to itself |
| TranscriptionModel.ParseStatusValue | backend/functions/models/transcription.py:7-18 | enum validation recovers each member from its stored value |
| TranscriptionModel.ParseStatusExact | backend/functions/models/transcription.py:7-18 | validation accepts exactly the eight values, and distinct members have distinct values |
| TranscriptionModel.NewTranscription | backend/functions/models/transcription.py:20-32 | constructing with `session_id` and `text` applies every default; `created_at` is the server timestamp |
| TranscriptionModel.DumpTranscription | backend/functions/models/transcription.py:20-32 | `model_dump()` has exactly the nine declared fields |
| TranscriptionModel.ParseTranscription | backend/functions/models/transcription.py:24-26 | validation fails without a string `session_id` or without `text`; success keeps the stored session id |
| TranscriptionModel.ParseDumpTranscription | backend/functions/models/transcription.py:20-32 | validating a dumped transcription gives it back |
| QueueModel.QueueStatusValue | backend/functions/models/queue.py:6-12 | the stored values are waiting, finished and error |
| QueueModel.NewQueue | backend/functions/models/queue.py:14-21 | a new entry defaults to WAITING with no creation time |
| QueueModel.DumpQueue | backend/functions/models/queue.py:14-21 | the dump has exactly the four declared fields |
| QueueModel.ParseQueueStatus | backend/functions/models/queue.py:6-12 | a validated status string is that member's value |
| QueueModel.ParseQueue | backend/functions/models/queue.py:18-19 | a validated entry keeps the stored session id and audio URL |
| QueueModel.ParseDumpQueue | backend/functions/models/queue.py:14-21 | validating a dumped entry gives it back |
| MedicalExtractionModel.EmptyPatientInfo | backend/functions/models/medical_extraction.py:4-10 | every patient field defaults to None |
| MedicalExtractionModel.ParseDumpPatientInfo | backend/functions/models/medical_extraction.py:4-10 | patient info round-trips through dump and validation |
| MedicalExtractionModel.ParsePatientInfoOfEmpty | backend/functions/models/medical_extraction.py:4-10 | an empty object validates to the all-default patient info |
| MedicalExtractionModel.ParseDumpSymptom | backend/functions/models/medical_extraction.py:12-15 | a symptom round-trips |
| MedicalExtractionModel.DumpSymptoms | backend/functions/models/medical_extraction.py:20 | one dumped item per symptom |
| MedicalExtractionModel.ParseDumpSymptoms | backend/functions/models/medical_extraction.py:20 | a list of symptoms round-trips, by induction on the list |
| MedicalExtractionModel.PatientInfoFieldOfDump | backend/functions/models/medical_extraction.py:19 | a dumped `patient_info` field validates back to its value |
| MedicalExtractionModel.SymptomsFieldOfDump | backend/functions/models/medical_extraction.py:20 | a dumped `symptoms` field validates back to its value |
| ClinicalRecordModel.FromExtraction | backend/functions/services/medical_info_extractor_service.py:32-36 | the record keeps the extraction's fields, takes the session id and classifications, and leaves report, diagnoses and timestamps unset |
| ClinicalRecordModel.ParseDumpDiagnosisProbability | backend/functions/models/clinical_record.py:6-14 | a diagnosis probability round-trips |
| ClinicalRecordModel.DumpDiagnoses | backend/functions/models/clinical_record.py:30 | one dumped item per diagnosis |
| ClinicalRecordModel.ParseDumpDiagnoses | backend/functions/models/clinical_record.py:30 | a list of diagnoses round-trips |
| ClinicalRecordModel.ParseDumpClassified | backend/functions/models/clinical_record.py:16-21 | a classified symptom round-trips |
| ClinicalRecordModel.DumpClassifiedList | backend/functions/models/clinical_record.py:28 | one dumped item per classified symptom |
| ClinicalRecordModel.ParseDumpClassifiedList | backend/functions/models/clinical_record.py:28 | a list of classified symptoms round-trips |
| ClinicalRecordModel.DumpClinicalRecord | backend/functions/models/clinical_record.py:23-32 | the dump has the four inherited and six own fields, and the session id as a string |
| ClinicalRecordModel.ExtractionFieldsOfDump | backend/functions/models/medical_extraction.py:17-21 | the inherited fields of a dumped record validate back to its extraction part |
| ClinicalRecordModel.ParseClinicalRecord | backend/functions/models/clinical_record.py:23-32 | a validated record keeps the stored session id |
| ClinicalRecordModel.DumpClassifiedField | backend/functions/models/clinical_record.py:28 | the dumped `classified_symptoms` field validates back |
| ClinicalRecordModel.DumpDiagnosesField | backend/functions/models/clinical_record.py:30 | the dumped `diagnosis` field validates back |
| ClinicalRecordModel.DumpScalarFields | backend/functions/models/clinical_record.py:27-32 | the dumped scalar fields validate back |
| ClinicalRecordModel.ParseDumpClinicalRecord | backend/functions/models/clinical_record.py:23-32 | validating a dumped clinical record gives it back |
| Store.Apply | backend/functions/repositories/transcription_repository.py:53-58 | a write is accepted exactly when the store accepts it, and its attempt is journalled with that result |
| Store.Record | backend/functions/services/transcription_service.py:40-41 | an external call only adds its event to the journal |
| Store.ApplyFrame | backend/functions/repositories/transcription_repository.py:53-58 | a write changes at most its own key; a rejected write changes no document |
| Store.SetTwiceKeepsLast | backend/functions/repositories/clinical_record_repository.py:7-9 | two `set`s under one key leave the second document, as if only it was written |
| Store.UpdateKeepsOtherFields | backend/functions/repositories/transcription_repository.py:54-58 | an update overwrites the named fields and keeps every other field |
| Store.RecordStore.Write | backend/functions/repositories/transcription_repository.py:53-58 | the method's new state and outcome are `Apply`'s |
| Store.RecordStore.CallExternal | backend/functions/services/transcription_service.py:40-41 | the method's new state is `Record`'s |
| Store.RecordStore.FirstWhere | backend/functions/repositories/transcription_repository.py:27-35 | a hit is some matching document of the collection; no hit means that no document matches |
| TranscriptionRepository.SaveTranscriptionWrite | backend/functions/repositories/transcription_repository.py:5-20 | a whole-document set under the session, which validates back to the transcription with the server timestamp as `created_at` |
| TranscriptionRepository.SaveTranscription | backend/functions/repositories/transcription_repository.py:5-20 | the store after the save is that write applied |
| TranscriptionRepository.StatusWrite | backend/functions/repositories/transcription_repository.py:51-59 | an update under `transcriptions/{id}` of exactly status, message and time |
| TranscriptionRepository.SetProcessingStatus | backend/functions/repositories/transcription_repository.py:51-59 | the store after the call is that update applied |
| TranscriptionRepository.StatusWriteEffect | backend/functions/repositories/transcription_repository.py:54-58 | an accepted status write leaves the status value and the message, clears an older message, and keeps every other field |
| TranscriptionRepository.StatusWriteInjective | backend/functions/repositories/transcription_repository.py:51-59 | two equal status writes name the same session, status and message |
| TranscriptionRepository.IsoField | backend/functions/repositories/transcription_repository.py:44-47 | a truthy timestamp becomes its ISO string; the other fields and an absent or falsy field are untouched |
| TranscriptionRepository.IsoTimestamps | backend/functions/repositories/transcription_repository.py:43-47 | only `created_at` and `updated_at` can change |
| TranscriptionRepository.GetTranscriptionBySessionId | backend/functions/repositories/transcription_repository.py:22-49 | a matching transcription with ISO timestamps, or the ValueError text when none matches |
| QueueRepository.AddToQueueWrite | backend/functions/repositories/queue_repository.py:5-19 | a set under `queue/{id}` whose `created_at` is the server timestamp, and which validates back to the entry |
| QueueRepository.AddToQueue | backend/functions/repositories/queue_repository.py:5-19 | the store after the call is that write applied |
| QueueRepository.QueueStatusWrite | backend/functions/repositories/queue_repository.py:21-30 | an update of exactly status, message and time under `queue/{id}` |
| QueueRepository.SetQueueProcessingStatus | backend/functions/repositories/queue_repository.py:21-30 | the store after the call is that update applied |
| ClinicalRecordRepository.SaveClinicalRecordWrite | backend/functions/repositories/clinical_record_repository.py:4-10 | a whole-document set under `clinical_record/{session_id}` |
| ClinicalRecordRepository.SavedRecordParses | backend/functions/repositories/clinical_record_repository.py:9 | the saved document validates back to exactly the record |
| ClinicalRecordRepository.SaveClinicalRecord | backend/functions/repositories/clinical_record_repository.py:4-10 | the store after the call is that write applied |
| ClinicalRecordRepository.DiagnosisReportWrite | backend/functions/diagnosis_generation.py:234-248 | an update of exactly report, probabilities and time; the probabilities validate back to the diagnoses |
| ClinicalRecordRepository.SaveDiagnosisReport | backend/functions/diagnosis_generation.py:234-248 | the store after the call is that update applied |
| ClinicalRecordRepository.SaveClinicalRecordTwice | backend/functions/repositories/clinical_record_repository.py:4-10 | a redelivered save leaves one document equal to the last record, and changes no other key |
| KnowledgeBaseRepository.StrLeTotal | backend/functions/repositories/medical_knowledge_base_repository.py:93 | Python's string order is total |
| KnowledgeBaseRepository.Insert | backend/functions/repositories/medical_knowledge_base_repository.py:93 | inserting into a sorted list keeps it sorted and adds exactly the element |
| KnowledgeBaseRepository.SortByDisease | backend/functions/repositories/medical_knowledge_base_repository.py:90-94 | the search hits come back sorted by `disease_name`, as a permutation of the hits |
| KnowledgeBaseRepository.Names | backend/functions/repositories/medical_knowledge_base_repository.py:101 | the disease names, position by position |
| KnowledgeBaseRepository.RetrieveFullDocs | backend/functions/repositories/medical_knowledge_base_repository.py:96-118 | one document per distinct matched name, each holding its `<name>.md` file; every matched name with a file is returned |
| KnowledgeBaseRepository.Stem | backend/functions/repositories/medical_knowledge_base_repository.py:72 | the stem of a `*.md` name gives back that file name |
| KnowledgeBaseRepository.ReadLocalDocuments | backend/functions/repositories/medical_knowledge_base_repository.py:66-75 | the loop yields, in order, one document per `*.md` file of the listing |
| KnowledgeBaseRepository.MdDocumentsResolve | backend/functions/repositories/medical_knowledge_base_repository.py:66-75 | every document read is found again under `<name>.md` with the same content |
| KnowledgeBaseRepository.LoadDocuments | backend/functions/repositories/medical_knowledge_base_repository.py:33-64 | nothing is inserted when reading or index setup fails; otherwise a prefix of the documents is inserted, stopping at the first failed insertion |
| Text.Lower | backend/functions/services/diagnosis_generation_service.py:219-223 | `str.lower` on ASCII: same length, no upper-case letter left |
| Text.Find | backend/functions/services/diagnosis_generation_service.py:260 | the first occurrence of a character, or the length when there is none |
| Text.SplitJoin | backend/functions/services/diagnosis_generation_service.py:260 | splitting a join of separator-free parts gives the parts back |
| TranscriptionService.NatText | backend/functions/services/transcription_service.py:41 | the decimal text of a status code is non-empty digits |
| TranscriptionService.RaiseForStatus | backend/functions/services/transcription_service.py:41 | a response fails exactly for codes 400-599, with the client or server error text |
| TranscriptionService.DownloadResult | backend/functions/services/transcription_service.py:38-46 | the download succeeds exactly when the fetch succeeds with a non-error code, and names the file after the session |
| TranscriptionService.TranscribeResult | backend/functions/services/transcription_service.py:49-71 | the transcriber's text, language and duration with the medical context, when the call succeeds |
| TranscriptionService.FinishedTranscription | backend/functions/services/transcription_service.py:23-31 | the saved record carries the URL, text, duration and context, with status TRANSCRIPTION_FINISHED |
| TranscriptionService.ProcessSpec | backend/functions/services/transcription_service.py:18-36 | a failure changes no document; a success is download, transcription and then the accepted save of that record |
| TranscriptionService.Download | backend/functions/services/transcription_service.py:38-46 | one download call journalled; the result is `DownloadResult` |
| TranscriptionService.Transcribe | backend/functions/services/transcription_service.py:49-71 | one transcription call journalled; the result is `TranscribeResult` |
| TranscriptionService.Process | backend/functions/services/transcription_service.py:18-36 | the method equals `ProcessSpec` |
| StartProcessTrigger.GetRequestData | backend/functions/triggers/start_process.py:16-26 | a falsy body raises "No JSON data provided"; it passes exactly for an object with a truthy URL or text, and returns both |
| StartProcessTrigger.ErrorResponse | backend/functions/triggers/start_process.py:77-99 | a ValueError is answered 400 with its text; anything else is answered 500 "Internal server error: ..." |
| StartProcessTrigger.DirectTranscription | backend/functions/triggers/start_process.py:65-70 | the stored record has the text, the URL and status TRANSCRIPTION_FINISHED |
| StartProcessTrigger.QueueBranch | backend/functions/triggers/start_process.py:55-62 | the queue entry is written, and the response then fails on the missing TRANSCRIPTION_WAITING member: never a 200 |
| StartProcessTrigger.TextBranch | backend/functions/triggers/start_process.py:64-76 | a 200 means exactly one accepted save of the finished transcription and the session id returned; any other answer changes no document |
| StartProcessTrigger.StartSpec | backend/functions/triggers/start_process.py:37-99 | an invalid body writes nothing and is answered with its exception (400 for a ValueError, 500 otherwise); a truthy URL takes the queue branch, otherwise the text branch |
| StartProcessTrigger.SuccessOnlyForText | backend/functions/triggers/start_process.py:55-76 | only a request without a truthy URL can succeed; it stores one transcription under the fresh id and returns that id |
| StartProcessTrigger.StartProcess | backend/functions/triggers/start_process.py:37-99 | the method equals `StartSpec` |
| MedicalInfoExtractor.FirstMinIndex | backend/functions/services/medical_info_extractor_service.py:112 | `min` picks an index inside the hits |
| MedicalInfoExtractor.FirstMinIndexIsFirstMinimum | backend/functions/services/medical_info_extractor_service.py:112 | the chosen hit has the lowest score, and every earlier hit scores strictly higher |
| MedicalInfoExtractor.BestMatch | backend/functions/services/medical_info_extractor_service.py:109-113 | `min` of no hits raises the empty-sequence error; otherwise it returns the first lowest-scoring hit |
| MedicalInfoExtractor.ClassifyOneMeaning | backend/functions/services/medical_info_extractor_service.py:102-122 | a classification keeps name, intensity and duration, takes the best hit's level and `1 - score` (the highest confidence), and fails exactly when the search fails or is empty |
| MedicalInfoExtractor.Searches | backend/functions/services/medical_info_extractor_service.py:102-109 | one search per symptom |
| MedicalInfoExtractor.SearchesAt | backend/functions/services/medical_info_extractor_service.py:104-109 | the i-th search queries the i-th symptom's text |
| MedicalInfoExtractor.ClassifyList | backend/functions/services/medical_info_extractor_service.py:100-125 | on success, one classification per symptom, each that symptom's own |
| MedicalInfoExtractor.SearchesMade | backend/functions/services/medical_info_extractor_service.py:102-122 | every symptom is searched on success |
| MedicalInfoExtractor.SearchesMadeStopsAtFirstFailure | backend/functions/services/medical_info_extractor_service.py:102-122 | the loop stops right after the first failing symptom, and completes exactly when none fails |
| MedicalInfoExtractor.FirstFailure | backend/functions/services/medical_info_extractor_service.py:102-122 | the first failing symptom's error is the result, after that many searches |
| MedicalInfoExtractor.AllClassified | backend/functions/services/medical_info_extractor_service.py:102-125 | when every symptom classifies, those classifications are returned in order |
| MedicalInfoExtractor.ClassificationSpec | backend/functions/services/medical_info_extractor_service.py:67-125 | no symptoms means no calls and an empty list; otherwise the index is built and a prefix of the searches is made, all of them on success; no document changes |
| MedicalInfoExtractor.ClassificationSpecResult | backend/functions/services/medical_info_extractor_service.py:67-125 | the classifications do not depend on the store |
| MedicalInfoExtractor.ClassifySymptom | backend/functions/services/medical_info_extractor_service.py:104-122 | the loop body makes one search and returns that symptom's classification |
| MedicalInfoExtractor.ClassifyEachSymptom | backend/functions/services/medical_info_extractor_service.py:102-125 | the loop journals exactly the searches made and returns `ClassifyList` |
| MedicalInfoExtractor.SymptomsSeverityClassification | backend/functions/services/medical_info_extractor_service.py:67-125 | the method equals `ClassificationSpec` |
| MedicalInfoExtractor.SaveAndFinish | backend/functions/services/medical_info_extractor_service.py:38-39 | on success the record was saved and then FINISHED accepted, and the record is stored under the session |
| MedicalInfoExtractor.SaveBeforeFinished | backend/functions/services/medical_info_extractor_service.py:38-39 | the save is attempted first, and FINISHED is attempted exactly when the save was accepted |
| MedicalInfoExtractor.ClassifyAndSave | backend/functions/services/medical_info_extractor_service.py:30-39 | success means that classification succeeded, then the save and FINISHED, with the record built from them stored |
| MedicalInfoExtractor.AfterStarted | backend/functions/services/medical_info_extractor_service.py:28-39 | after STARTED: extraction, classification, save and FINISHED, in that order, on success |
| MedicalInfoExtractor.ExtractionCalledFirst | backend/functions/services/medical_info_extractor_service.py:28 | the extraction call is the first event after STARTED |
| MedicalInfoExtractor.ExtractionSteps | backend/functions/services/medical_info_extractor_service.py:23-39 | the two assertions fail with their messages and touch nothing; success is STARTED, extraction, searches, save and FINISHED, with the record stored |
| MedicalInfoExtractor.StartedComesFirst | backend/functions/services/medical_info_extractor_service.py:26 | nothing is called and no document changes before STARTED is accepted |
| MedicalInfoExtractor.ProcessSpec | backend/functions/services/medical_info_extractor_service.py:16-46 | an empty session id changes nothing; any failure with a session id is followed by one attempt at INFORMATION_EXTRACTION_ERROR with the error text; when accepted, the document shows that status and message |
| MedicalInfoExtractor.ProcessEndsWithStageStatus | backend/functions/services/medical_info_extractor_service.py:16-46 | every run with a session id ends with the accepted FINISHED status or an attempt at the ERROR status |
| MedicalInfoExtractor.EmptyTextOnlyRecordsError | backend/functions/services/medical_info_extractor_service.py:25 | an empty transcription only attempts the "empty transcription" error status |
| MedicalInfoExtractor.ExtractMedicalInformation | backend/functions/services/medical_info_extractor_service.py:48-65 | one extraction call with the transcription text |
| MedicalInfoExtractor.Steps | backend/functions/services/medical_info_extractor_service.py:23-39 | the method equals `ExtractionSteps` |
| MedicalInfoExtractor.AfterStartedMethod | backend/functions/services/medical_info_extractor_service.py:28-39 | the method equals `AfterStarted` |
| MedicalInfoExtractor.ClassifyAndSaveMethod | backend/functions/services/medical_info_extractor_service.py:30-39 | the method equals `ClassifyAndSave` |
| MedicalInfoExtractor.SaveAndFinishMethod | backend/functions/services/medical_info_extractor_service.py:38-39 | the method equals `SaveAndFinish` |
| MedicalInfoExtractor.Process | backend/functions/services/medical_info_extractor_service.py:16-46 | the method equals `ProcessSpec` |
| InformationExtractorTrigger.HandlerSpec | backend/functions/triggers/medical_information_extractor.py:7-37 | no parameter or no document changes nothing; an invalid document attempts TRANSCRIPTION_ERROR; otherwise the service runs |
| InformationExtractorTrigger.TranscriptionErrorOnlyFromValidation | backend/functions/triggers/medical_information_extractor.py:30-37 | once the service runs, the last event is its own status attempt, never a TRANSCRIPTION_ERROR |
| InformationExtractorTrigger.Handler | backend/functions/triggers/medical_information_extractor.py:7-37 | the method equals `HandlerSpec` |
| DiagnosisGenerationService.Details | backend/functions/services/diagnosis_generation_service.py:249-254 | the details end with the confidence, written with `str` |
| DiagnosisGenerationService.SymptomLines | backend/functions/services/diagnosis_generation_service.py:247-258 | one line per symptom, in order |
| DiagnosisGenerationService.JoinNoNewline | backend/functions/services/diagnosis_generation_service.py:257 | joining line-free parts with a line-free separator gives no line break |
| DiagnosisGenerationService.SymptomLineNoNewline | backend/functions/services/diagnosis_generation_service.py:249-258 | a symptom line has no line break when its fields have none |
| DiagnosisGenerationService.SymptomLineHead | backend/functions/services/diagnosis_generation_service.py:258 | each line opens with `- **name**` |
| DiagnosisGenerationService.FormattedSymptomsAreLines | backend/functions/services/diagnosis_generation_service.py:241-260 | the formatted text splits back into exactly one line per symptom, each opening with its bold name |
| DiagnosisGenerationService.FormatSymptomsForPrompt | backend/functions/services/diagnosis_generation_service.py:241-260 | the loop produces that text, or "No specific symptoms documented." for none |
| DiagnosisGenerationService.QueryParts | backend/functions/services/diagnosis_generation_service.py:216-225 | the lower-cased symptom names, then the lower-cased reason when it is truthy |
| DiagnosisGenerationService.KnowledgeLines | backend/functions/services/diagnosis_generation_service.py:231-233 | one `- content` line per hit |
| DiagnosisGenerationService.FormatKnowledge | backend/functions/services/diagnosis_generation_service.py:231-235 | the hits' lines, or the general-knowledge sentence when there are none |
| DiagnosisGenerationService.JoinNonEmpty | backend/functions/services/diagnosis_generation_service.py:235 | a join whose first part is non-empty is non-empty |
| DiagnosisGenerationService.RetrieveKnowledgeSpec | backend/functions/services/diagnosis_generation_service.py:200-239 | retrieval never fails and is never empty; a failure gives the "temporarily unavailable" text; it only journals its calls |
| DiagnosisGenerationService.RetrieveMedicalKnowledge | backend/functions/services/diagnosis_generation_service.py:200-239 | the method equals `RetrieveKnowledgeSpec` |
| DiagnosisGenerationService.ReportPromptFor | backend/functions/services/diagnosis_generation_service.py:188-196 | the corrected wiring puts the diagnosis and the plan text into their own slots |
| DiagnosisGenerationService.ReportPromptKeepsBoth | backend/functions/services/diagnosis_generation_service.py:188-196 | with that wiring the prompt determines both the diagnosis and the plan |
| DiagnosisGenerationService.ReportPromptAsWritten | backend/functions/services/diagnosis_generation_service.py:188-196 | as wired, both slots receive the mapping `{"treatment_plan": plan}` |
| DiagnosisGenerationService.AsWrittenReportIgnoresDiagnosis | backend/functions/services/diagnosis_generation_service.py:188-196 | as wired, any two diagnoses with one plan give the same report prompt |
| DiagnosisGenerationService.ChainSpec | backend/functions/services/diagnosis_generation_service.py:164-198 | without patient info nothing is called; success is the three calls in order, with the diagnoses from the first and the report from the last, which is given the as-written prompt |
| DiagnosisGenerationService.GenerateSpec | backend/functions/services/diagnosis_generation_service.py:164-198 | retrieval, then the three calls; no document changes and the journal only grows |
| DiagnosisGenerationService.ChainSpecIntended | backend/functions/services/diagnosis_generation_service.py:188-196 | the same chain with the intended report prompt, the diagnosis in its slot |
| DiagnosisGenerationService.ChainWiringsDifferOnlyInReport | backend/functions/services/diagnosis_generation_service.py:188-196 | both wirings make the same calls and, where both succeed, yield the same diagnoses |
| DiagnosisGenerationService.Chain | backend/functions/services/diagnosis_generation_service.py:169-198 | the method equals `ChainSpec` |
| DiagnosisGenerationService.GenerateDiagnosisReport | backend/functions/services/diagnosis_generation_service.py:47-198 | the method equals `GenerateSpec` |
| DiagnosisGenerationService.SaveAndFinish | backend/functions/services/diagnosis_generation_service.py:40-42 | on success the report write and then FINISHED were accepted, and the document holds the report and the diagnoses |
| DiagnosisGenerationService.ProcessSpec | backend/functions/services/diagnosis_generation_service.py:23-45 | no session id fails untouched; a rejected STARTED is the only event, with no call and no document changed; success is STARTED, the knowledge and model calls, the report write and FINISHED, with the report stored |
| DiagnosisGenerationService.SuccessEndsFinished | backend/functions/services/diagnosis_generation_service.py:42 | a successful run ends with the accepted FINISHED status |
| DiagnosisGenerationService.GenerateIgnoresDocuments | backend/functions/services/diagnosis_generation_service.py:47-198 | the generated report does not depend on the store's contents |
| DiagnosisGenerationService.SaveAndFinishMethod | backend/functions/services/diagnosis_generation_service.py:40-42 | the method equals `SaveAndFinish` |
| DiagnosisGenerationService.StartedComesFirst | backend/functions/services/diagnosis_generation_service.py:29-32 | with a session id, the attempt at DIAGNOSIS_STARTED is the run's first event, before any call or other write |
| DiagnosisGenerationService.FailureLeavesRecord | backend/functions/services/diagnosis_generation_service.py:29-45 | a rejected STARTED or a failed generation leaves every document but the transcription, the clinical record included, untouched, and the run fails |
| DiagnosisGenerationService.Process | backend/functions/services/diagnosis_generation_service.py:23-45 | the method equals `ProcessSpec` |
| DiagnosisGenerationTrigger.Run | backend/functions/triggers/diagnosis_generation.py:24-31 | no document fails with "Empty object provided on function invoke"; an invalid record fails with its error; otherwise the service runs |
| DiagnosisGenerationTrigger.HandlerSpec | backend/functions/triggers/diagnosis_generation.py:12-38 | with a parameter, every failure (a missing document included) is followed by one attempt at DIAGNOSIS_ERROR with its text |
| DiagnosisGenerationTrigger.EndsFinishedOnPass | backend/functions/triggers/diagnosis_generation.py:29-30 | a successful run ends with the accepted DIAGNOSIS_FINISHED |
| DiagnosisGenerationTrigger.EndsInErrorOnFail | backend/functions/triggers/diagnosis_generation.py:32-38 | a failed run ends with an attempt at DIAGNOSIS_ERROR carrying the error |
| DiagnosisGenerationTrigger.EndsInTerminalStatus | backend/functions/triggers/diagnosis_generation.py:12-38 | every run with a parameter ends with a terminal status for the stage |
| DiagnosisGenerationTrigger.FailedGenerationLeavesRecord | backend/functions/triggers/diagnosis_generation.py:19-39 | when STARTED is rejected or generation fails, the handler changes no document but the transcriptions it writes a status to |
| DiagnosisGenerationTrigger.Handler | backend/functions/triggers/diagnosis_generation.py:12-38 | the method equals `HandlerSpec` |
| LegacyTranscriptionHandler.Body | backend/functions/audio_transcription.py:30-41 | an invalid entry fails untouched; otherwise it transcribes, then marks the entry FINISHED; it succeeds exactly when both did |
| LegacyTranscriptionHandler.HandlerSpec | backend/functions/audio_transcription.py:23-46 | no parameter raises the assertion; no document does nothing; a failure attempts ERROR on the entry and is re-raised |
| LegacyTranscriptionHandler.SuccessSavedThenFinished | backend/functions/audio_transcription.py:39-41 | a success ends with the accepted transcription save and then the accepted FINISHED |
| LegacyTranscriptionHandler.Handler | backend/functions/audio_transcription.py:23-46 | the method equals `HandlerSpec` |
| LegacyInformationExtractor.Steps | backend/functions/medical_information_extractor.py:36-49 | a rejected STARTED is the whole effect; otherwise the service's steps follow |
| LegacyInformationExtractor.HandlerSpec | backend/functions/medical_information_extractor.py:16-59 | no parameter or document does nothing; every failure attempts TRANSCRIPTION_ERROR with its text |
| LegacyInformationExtractor.SameStepsAsService | backend/functions/medical_information_extractor.py:36-49 | where the service's assertions hold, both variants do the same work |
| LegacyInformationExtractor.ErrorStatusDiffers | backend/functions/medical_information_extractor.py:53-57 | the same failure is recorded as TRANSCRIPTION_ERROR here and INFORMATION_EXTRACTION_ERROR in the service |
| LegacyInformationExtractor.EmptyTextStillExtracted | backend/functions/medical_information_extractor.py:36-38 | an empty transcription is still sent for extraction here; the service only records the error |
| LegacyInformationExtractor.Handler | backend/functions/medical_information_extractor.py:16-59 | the method equals `HandlerSpec` |
| LegacyDiagnosisGeneration.LegacyStatusWrite | backend/functions/diagnosis_generation.py:56-64 | the same three-field update, with the status as a free string |
| LegacyDiagnosisGeneration.StatusesOutsideEnum | backend/functions/diagnosis_generation.py:37-51 | none of the three status strings is an enum value |
| LegacyDiagnosisGeneration.QueryParts | backend/functions/diagnosis_generation.py:188-196 | the symptom names as written, then the truthy reason |
| LegacyDiagnosisGeneration.QueryLowersToService | backend/functions/diagnosis_generation.py:188-196 | lower-casing each part gives the service's query |
| LegacyDiagnosisGeneration.RetrieveSpec | backend/functions/diagnosis_generation.py:171-210 | the same fallbacks as the service, for this query; never empty |
| LegacyDiagnosisGeneration.GenerateSpec | backend/functions/diagnosis_generation.py:66-168 | every failure, a missing patient record included, surfaces as the TypeError of raising a string; success is one report call |
| LegacyDiagnosisGeneration.Body | backend/functions/diagnosis_generation.py:37-44 | the body only appends to the journal, and its first event is the attempt at "processing_diagnosis" |
| LegacyDiagnosisGeneration.SuccessSavesThenCompletes | backend/functions/diagnosis_generation.py:42-44 | a success ends with the accepted report save under the record's id, then "diagnosis_complete" under the parameter's |
| LegacyDiagnosisGeneration.BodyMethod | backend/functions/diagnosis_generation.py:37-44 | the method equals `Body` |
| LegacyDiagnosisGeneration.HandlerSpec | backend/functions/diagnosis_generation.py:19-53 | no parameter or document writes nothing; every other failure attempts "error_processing_diagnosis" and is swallowed |
| LegacyDiagnosisGeneration.MissingDocumentDiffers | backend/functions/diagnosis_generation.py:33-35 | a missing document is ignored here, while the layered handler records DIAGNOSIS_ERROR |
| LegacyDiagnosisGeneration.Generate | backend/functions/diagnosis_generation.py:66-168 | the method equals `GenerateSpec` |
| LegacyDiagnosisGeneration.Handler | backend/functions/diagnosis_generation.py:19-53 | the method equals `HandlerSpec` |
| FrontendApi.FromValue | frontend/src/services/api.ts:13-25 | a string has the `TranscriptionStatus` type exactly when it is a value of the map |
| FrontendApi.ValueOfKey | frontend/src/services/api.ts:13-23 | each key's value reads back as that key |
| FrontendApi.MapIsInjective | frontend/src/services/api.ts:13-23 | nine keys, all listed, with nine distinct values |
| FrontendApi.ClientStatusesExtendBackend | frontend/src/services/api.ts:13-23 | the client knows every backend status, plus exactly "transcription_started" |
| FrontendApi.RequestBody | frontend/src/services/api.ts:83-85 | exactly one key: the URL when truthy, otherwise the text |
| FrontendApi.Serialize | frontend/src/services/api.ts:87 | undefined members are dropped, defined ones become strings |
| FrontendApi.SubmissionAtEntry | frontend/src/services/api.ts:82-89 | how the entry's request parsing reads each kind of submission, missing text included |
| StepIndicator.IndexOf | frontend/src/components/StepIndicator.tsx:43 | -1 exactly when absent, otherwise the first position |
| StepIndicator.GetStepStatus | frontend/src/components/StepIndicator.tsx:28-62 | a missing status leaves the step pending |
| StepIndicator.OrderDistinct | frontend/src/components/StepIndicator.tsx:34-41 | the six statuses of the order are distinct |
| StepIndicator.FinishedIndices | frontend/src/components/StepIndicator.tsx:48-55 | the steps count as finished at positions 1, 3 and 5 |
| StepIndicator.ErrorOffOrder | frontend/src/components/StepIndicator.tsx:4-41 | no error status is in the order |
| StepIndicator.StepPositions | frontend/src/components/StepIndicator.tsx:4-55 | step i starts at position 2i and finishes at 2i+1 |
| StepIndicator.PositionRule | frontend/src/components/StepIndicator.tsx:28-62 | completed past the start, in progress at the start, pending before it |
| StepIndicator.StepStateByPosition | frontend/src/components/StepIndicator.tsx:28-62 | that rule holds for every step and every status in the order |
| StepIndicator.OffOrderStatus | frontend/src/components/StepIndicator.tsx:29-46 | any other status errors its own step and leaves every other step pending, finished ones included |
| StepIndicator.DiagnosisCompletedOnlyWhenFinished | frontend/src/components/StepIndicator.tsx:28-62 | the diagnosis step shows completed exactly for "diagnosis_finished" |
| StepIndicator.AtMostOneActive | frontend/src/components/StepIndicator.tsx:28-62 | at most one step is errored or in progress |
| StepIndicator.ErrorsDistinct | frontend/src/components/StepIndicator.tsx:4-26 | the three steps have three different error statuses |
| ProcessingStatusView.StateOf | frontend/src/components/ProcessingStatus.tsx:27-44 | a known string names its state, an unknown one none |
| ProcessingStatusView.StatusText | frontend/src/components/ProcessingStatus.tsx:27-44 | never empty; "Unknown status" exactly for unknown strings |
| ProcessingStatusView.ProgressPercentage | frontend/src/components/ProcessingStatus.tsx:46-63 | a multiple of 25 in 0..100; 100 exactly when completed; 0 exactly outside the four running or done states |
| ProcessingStatusView.ProgressAlongPipeline | frontend/src/components/ProcessingStatus.tsx:46-63 | progress grows strictly along the pipeline, a quarter per step |
| ProcessingStatusView.StatusTextsDistinct | frontend/src/components/ProcessingStatus.tsx:27-44 | each state has its own sentence |
| ProcessingStatusView.SubmittedMarkClass | frontend/src/components/ProcessingStatus.tsx:112-114 | green exactly when completed or errored, gray otherwise |
| ProcessingStatusView.SubmittedMarkGrayWhileRunning | frontend/src/components/ProcessingStatus.tsx:46-63 | the mark is gray for every status whose percentage is strictly between 0 and 100 |
| ProcessingStatusView.LaterMarks | frontend/src/components/ProcessingStatus.tsx:119-138 | "Audio transcribed" iff a transcription, "Medical information extracted" iff an extraction and not pending, "Diagnosis generated" iff a diagnosis and completed, in that order |
| ProcessingStatusView.DiagnosedMarkOnlyWhenComplete | frontend/src/components/ProcessingStatus.tsx:112-138 | "Diagnosis generated" shows only at 100% with the green submitted mark; while pending at most the transcription mark shows |
| MedicalResultsView.SeverityValue | frontend/src/components/MedicalResults.tsx:54-67 | 0 exactly for unknown severities, otherwise the position among the four |
| MedicalResultsView.SeverityValueIncreasing | frontend/src/components/MedicalResults.tsx:54-67 | the ordinal strictly increases from mild to critical |
| MedicalResultsView.ChartValues | frontend/src/components/MedicalResults.tsx:80 | one value in 0..4 per symptom, 0 exactly for unknown severities |
| MedicalResultsView.SeverityColor | frontend/src/components/MedicalResults.tsx:39-52 | gray exactly for unknown severities |
| MedicalResultsView.SeverityColorsDistinct | frontend/src/components/MedicalResults.tsx:39-52 | different severities get different badges |
| MedicalResultsView.TickLabel | frontend/src/components/MedicalResults.tsx:142-150 | empty exactly outside 1..4 |
| MedicalResultsView.Capitalized | frontend/src/components/MedicalResults.tsx:144-147 | only the first letter changes |
| MedicalResultsView.TickNamesSeverity | frontend/src/components/MedicalResults.tsx:54-67 | the tick label of each severity's value is its own name, capitalised |
| MedicalResultsView.ClassifiedSeverityIsCharted | frontend/src/components/MedicalResults.tsx:39-67 | every severity the extraction stage attaches is charted above 0, badged in colour and labelled |

## Findings

| source | as written | input that shows it | evidently intended | confidence | as-written member | corrected member |
|---|---|---|---|---|---|---|
| backend/functions/services/diagnosis_generation_service.py:188-196 | the first step's output, the mapping `{"treatment_plan": plan}`, is passed through unchanged to both `diagnosis_output` and `treatment_plan` | any two diagnoses with the same treatment plan | the diagnosis goes into `diagnosis_output` and the plan text into `treatment_plan` | not executed | DiagnosisGenerationService.AsWrittenReportIgnoresDiagnosis | DiagnosisGenerationService.ReportPromptKeepsBoth |

The diagnosis stage (`DiagnosisGenerationService.ChainSpec` and everything
built on it) sends the prompt as written, `ReportPromptAsWritten`.
`DiagnosisGenerationService.ChainSpecIntended` is the same chain with the
intended wiring, `ReportPromptFor`, and
`DiagnosisGenerationService.ChainWiringsDifferOnlyInReport` relates the two.

## Left out

- Logging (`print`), the CORS and method middleware, and the dispatcher are not modelled.
- Firebase's triggering of one stage by another's write is not modelled: each handler is a separate function of the event it receives.
- Concurrency and at-least-once redelivery are covered only by `SaveClinicalRecordTwice`.
- The prompt texts, the few-shot examples, the model names and the temperatures are not modelled; the model calls are oracles.
- The embeddings, the vector stores, Pinecone and the text splitter are not modelled. Only the order and success of their calls, and the hits they return, are modelled.
- `uuid4`, `str(float)` and `SERVER_TIMESTAMP` are parameters or an opaque sentinel.
- `get_index_stats` is not modelled: it only reads index statistics.
- `generate_transcription` is imported by `audio_transcription.py` but defined nowhere, and its line 4 imports `filestore.queue_repository`, a package absent from the tree (the module lives in `repositories/`). The stage is modelled by `TranscriptionService.ProcessSpec`.
- `save_diagnosis_report` is imported by the diagnosis service but defined nowhere in the layered tree. It is modelled by the top-level module's function.
- `ReportOutput` is imported from the clinical-record model, which does not define it. It is modelled as report text plus diagnoses.
- The `language` argument of the finished transcription is not a field of the record. Pydantic ignores it, and so does the model.
- The client posts submissions to `/transcription_handler`; routing is not modelled. `FrontendApi.SubmissionAtEntry` relates the body to the request parsing that the entry functions share.
- The React rendering is not modelled: icons (`getStatusIcon`), layout, polling, the chart's bar colours and options other than the tick labels, `null` renders, and `MedicalResults` rendering only when completed.
- TranscriptionModel.ParseTranscription: the contract states the session-id and required-field failures. The full validated value is stated by the round-trip lemma `ParseDumpTranscription`, not field by field.
- ClinicalRecordModel.ParseClinicalRecord: the contract states the session id. The whole record is stated by `ParseDumpClinicalRecord`.
- StepIndicator.GetStepStatus: its own contract states only the missing-status case. The full rule is stated by `StepStateByPosition`, `OffOrderStatus` and `AtMostOneActive`.
- LegacyDiagnosisGeneration.Body: its own contract states the frame, the growing journal and the first event. The success sequence is stated by `SuccessSavesThenCompletes`.
- KnowledgeBaseRepository.RetrieveFullDocs: the order of the returned documents follows a Python set and is left unspecified.
- Floating-point scores are modelled as reals, so `1 - score` is exact.
- Text.Lower: lowers ASCII capitals only. Python's `str.lower` lowers every cased character (`"NÁUSEA".lower() == "náusea"`), so `DiagnosisGenerationService.QueryParts` and the knowledge query differ from the source's on non-ASCII capitals.
- DiagnosisGenerationService.QueryParts: inherits the ASCII-only lowering of `Text.Lower`.
- Documents.OptNumField: a numeric string such as `"0.5"`, which pydantic's lax mode accepts for a float, is rejected; strings are not parsed as numbers.
- Documents.ReqNum: numeric strings are rejected, as for `OptNumField`.
- Documents.OptIntField: numeric strings such as `"30"` are rejected, as for `OptNumField`.
- Documents.OptTimeField: ISO-8601 strings and Unix-time numbers, which pydantic accepts for a datetime, are rejected; only stored timestamps validate.
- Store.RecordStore.FirstWhere: returns some matching document. The source keeps the first one the query streams, and that order (document ids compared as UTF-8 bytes) is not modelled.
- TranscriptionRepository.GetTranscriptionBySessionId: returns some matching transcription, for the reason given for `FirstWhere`.
- KnowledgeBaseRepository.SortByDisease: sorted and a permutation are proved; the stability of Python's `sorted` (file order kept among equal disease names) is not stated.
- Some error texts are abbreviated: `StartProcessTrigger.NotAString` drops pydantic's `[type=string_type, …]` and documentation-URL lines; `StartProcessTrigger.TextBranch` reports only `text` when both fields are invalid, where pydantic lists both in field order; `TranscriptionRepository.IsoField` omits the `'str' ` type prefix of the AttributeError.
- Documents.MissingField, Documents.WrongType: pydantic's `str(ValidationError)` is replaced by a short `<field>: <reason>` text. The real text has a "1 validation error for <Model>" header, the error type, the input value and a documentation URL, and lists every failing field where the model reports the first. The same holds for the list-item texts of the string-list, symptom, diagnosis and classified-symptom readers and for the enum texts of the status readers. These texts reach the store as the TRANSCRIPTION_ERROR `error_message` (`InformationExtractorTrigger.HandlerSpec`, `LegacyInformationExtractor.HandlerSpec`) and the DIAGNOSIS_ERROR message (`DiagnosisGenerationTrigger.Run`), so the stored message differs from the source's in wording; which inputs fail is what the readers' contracts state.
- TranscriptionService.RaiseForStatus: the message names the requested URL. `requests` names `response.url`, the final URL after redirects and normalisation, which the response model does not carry.
- StartProcessTrigger.MissingWaitingMember: the AttributeError text assumes Python 3.12 or later; on 3.11 and earlier `str(e)` is only "TRANSCRIPTION_WAITING".
