/** The `Transcription` record and the process-wide `TranscriptionStatus` enum. */
module TranscriptionModel {
  import opened Wrappers
  import opened Documents

  /** The eight members of the status enum, in declaration order. There is no
      waiting or started member for the transcription stage. */
  datatype TranscriptionStatus =
    | TranscriptionFinished
    | TranscriptionError
    | DiagnosisStarted
    | DiagnosisFinished
    | DiagnosisError
    | InformationExtractionStarted
    | InformationExtractionFinished
    | InformationExtractionError

  /** The string value stored in the `status` field. */
  function StatusValue(s: TranscriptionStatus): string {
    match s
    case TranscriptionFinished => "transcription_finished"
    case TranscriptionError => "transcription_error"
    case DiagnosisStarted => "diagnosis_started"
    case DiagnosisFinished => "diagnosis_finished"
    case DiagnosisError => "diagnosis_error"
    case InformationExtractionStarted => "information_extraction_started"
    case InformationExtractionFinished => "information_extraction_finished"
    case InformationExtractionError => "information_extraction_error"
  }

  /** Enum validation of a stored status string: the member whose value it is. */
  function ParseStatus(v: string): Option<TranscriptionStatus> {
    if v == "transcription_finished" then Some(TranscriptionFinished)
    else if v == "transcription_error" then Some(TranscriptionError)
    else if v == "diagnosis_started" then Some(DiagnosisStarted)
    else if v == "diagnosis_finished" then Some(DiagnosisFinished)
    else if v == "diagnosis_error" then Some(DiagnosisError)
    else if v == "information_extraction_started" then Some(InformationExtractionStarted)
    else if v == "information_extraction_finished" then Some(InformationExtractionFinished)
    else if v == "information_extraction_error" then Some(InformationExtractionError)
    else None
  }

  /** Validation recovers the member from its stored value. */
  lemma ParseStatusValue(s: TranscriptionStatus)
    ensures ParseStatus(StatusValue(s)) == Some(s)
  {
    match s
    case TranscriptionFinished =>
    case TranscriptionError =>
    case DiagnosisStarted =>
    case DiagnosisFinished =>
    case DiagnosisError =>
    case InformationExtractionStarted =>
    case InformationExtractionFinished =>
    case InformationExtractionError =>
  }

  /** Validation accepts exactly the eight values, so distinct members have distinct values. */
  lemma ParseStatusExact(v: string)
    ensures ParseStatus(v).Some? ==> StatusValue(ParseStatus(v).value) == v
    ensures forall a, b :: StatusValue(a) == StatusValue(b) ==> a == b
  {
    forall a, b | StatusValue(a) == StatusValue(b) ensures a == b {
      ParseStatusValue(a);
      ParseStatusValue(b);
    }
  }

  /** The record. `text` must be supplied but may be None; `created_at`
      defaults to the server-timestamp sentinel; everything else defaults to None. */
  datatype Transcription = Transcription(
    sessionId: string,
    audioUrl: Option<string>,
    text: Option<string>,
    context: Option<string>,
    duration: Option<real>,
    status: Option<TranscriptionStatus>,
    errorMessage: Option<string>,
    createdAt: Timestamp,
    updatedAt: Option<Timestamp>)

  /** `Transcription(session_id=..., text=...)` with every default applied. */
  function NewTranscription(sessionId: string, text: Option<string>): (t: Transcription)
    ensures t.sessionId == sessionId && t.text == text
    ensures t.createdAt == ServerTimestamp
    ensures t.audioUrl == t.context == t.errorMessage == None
    ensures t.duration == None && t.status == None && t.updatedAt == None
  {
    Transcription(sessionId, None, text, None, None, None, None, ServerTimestamp, None)
  }

  function OptStatus(o: Option<TranscriptionStatus>): Value {
    match o
    case None => Null
    case Some(s) => Str(StatusValue(s))
  }

  /** `model_dump()`: one entry per declared field. */
  function DumpTranscription(t: Transcription): (d: Document)
    ensures d.Keys == {"session_id", "audio_url", "text", "context", "duration",
                       "status", "error_message", "created_at", "updated_at"}
  {
    map[
      "session_id" := Str(t.sessionId),
      "audio_url" := OptStr(t.audioUrl),
      "text" := OptStr(t.text),
      "context" := OptStr(t.context),
      "duration" := OptNum(t.duration),
      "status" := OptStatus(t.status),
      "error_message" := OptStr(t.errorMessage),
      "created_at" := Time(t.createdAt),
      "updated_at" := OptTime(t.updatedAt)]
  }

  function StatusField(d: Document): Result<Option<TranscriptionStatus>> {
    if "status" !in d then Success(None)
    else match d["status"]
      case Null => Success(None)
      case Str(v) =>
        (match ParseStatus(v)
         case Some(s) => Success(Some(s))
         case None => Failure("status: Input should be a TranscriptionStatus value"))
      case _ => Failure(WrongType("status"))
  }

  function CreatedAtField(d: Document): Result<Timestamp> {
    if "created_at" !in d then Success(ServerTimestamp)
    else match d["created_at"]
      case Time(t) => Success(t)
      case _ => Failure(WrongType("created_at"))
  }

  /** `Transcription(**data)`: pydantic validation of a stored document;
      unknown fields are ignored. */
  function ParseTranscription(d: Document): (r: Result<Transcription>)
    ensures r.Success? ==> "session_id" in d && d["session_id"] == Str(r.value.sessionId)
    ensures "session_id" !in d || !d["session_id"].Str? ==> r.Failure?
    ensures "text" !in d ==> r.Failure?
  {
    var sessionId :- ReqStr(d, "session_id");
    var audioUrl :- OptStrField(d, "audio_url", true);
    var text :- OptStrField(d, "text", false);
    var context :- OptStrField(d, "context", true);
    var duration :- OptNumField(d, "duration");
    var status :- StatusField(d);
    var errorMessage :- OptStrField(d, "error_message", true);
    var createdAt :- CreatedAtField(d);
    var updatedAt :- OptTimeField(d, "updated_at");
    Success(Transcription(sessionId, audioUrl, text, context, duration, status, errorMessage, createdAt, updatedAt))
  }

  /** Validating a dumped record gives the record back. */
  lemma ParseDumpTranscription(t: Transcription)
    ensures ParseTranscription(DumpTranscription(t)) == Success(t)
  {
    var d := DumpTranscription(t);
    assert ReqStr(d, "session_id") == Success(t.sessionId);
    assert OptStrField(d, "audio_url", true) == Success(t.audioUrl);
    assert OptStrField(d, "text", false) == Success(t.text);
    assert OptStrField(d, "context", true) == Success(t.context);
    assert OptNumField(d, "duration") == Success(t.duration);
    if t.status.Some? { ParseStatusValue(t.status.value); }
    assert StatusField(d) == Success(t.status);
    assert OptStrField(d, "error_message", true) == Success(t.errorMessage);
    assert CreatedAtField(d) == Success(t.createdAt);
    assert OptTimeField(d, "updated_at") == Success(t.updatedAt);
  }
}
