/** The web client's view of the pipeline: the status strings it knows and
    the request body it submits. */
module FrontendApi {
  import opened Wrappers
  import opened Documents
  import TranscriptionModel
  import StartProcessTrigger

  /** The keys of `TranscriptionStatusMap`, in declaration order. */
  datatype StatusKey =
    | TranscriptionStarted
    | TranscriptionFinished
    | TranscriptionError
    | DiagnosisStarted
    | DiagnosisFinished
    | DiagnosisError
    | InformationExtractionStarted
    | InformationExtractionFinished
    | InformationExtractionError

  function MapValue(k: StatusKey): string {
    match k
    case TranscriptionStarted => "transcription_started"
    case TranscriptionFinished => "transcription_finished"
    case TranscriptionError => "transcription_error"
    case DiagnosisStarted => "diagnosis_started"
    case DiagnosisFinished => "diagnosis_finished"
    case DiagnosisError => "diagnosis_error"
    case InformationExtractionStarted => "information_extraction_started"
    case InformationExtractionFinished => "information_extraction_finished"
    case InformationExtractionError => "information_extraction_error"
  }

  const Keys: seq<StatusKey> := [
    TranscriptionStarted, TranscriptionFinished, TranscriptionError,
    DiagnosisStarted, DiagnosisFinished, DiagnosisError,
    InformationExtractionStarted, InformationExtractionFinished, InformationExtractionError]

  /** The `TranscriptionStatus` type: a string is one exactly when it is the
      value of some key, and then of one key only. */
  function FromValue(v: string): (r: Option<StatusKey>)
    ensures r.Some? ==> MapValue(r.value) == v
    ensures r.None? ==> forall k :: MapValue(k) != v
  {
    if v == "transcription_started" then Some(TranscriptionStarted)
    else if v == "transcription_finished" then Some(TranscriptionFinished)
    else if v == "transcription_error" then Some(TranscriptionError)
    else if v == "diagnosis_started" then Some(DiagnosisStarted)
    else if v == "diagnosis_finished" then Some(DiagnosisFinished)
    else if v == "diagnosis_error" then Some(DiagnosisError)
    else if v == "information_extraction_started" then Some(InformationExtractionStarted)
    else if v == "information_extraction_finished" then Some(InformationExtractionFinished)
    else if v == "information_extraction_error" then Some(InformationExtractionError)
    else None
  }

  /** Each key's value reads back as that key, so distinct keys have
      distinct values. */
  lemma ValueOfKey(k: StatusKey)
    ensures FromValue(MapValue(k)) == Some(k)
    ensures forall k' :: MapValue(k') == MapValue(k) ==> k' == k
  {
    match k
    case TranscriptionStarted =>
    case TranscriptionFinished =>
    case TranscriptionError =>
    case DiagnosisStarted =>
    case DiagnosisFinished =>
    case DiagnosisError =>
    case InformationExtractionStarted =>
    case InformationExtractionFinished =>
    case InformationExtractionError =>
  }

  /** Nine keys, every key listed, and nine distinct values. */
  lemma MapIsInjective()
    ensures |Keys| == 9 && forall k :: k in Keys
    ensures forall i, j :: 0 <= i < j < |Keys| ==> MapValue(Keys[i]) != MapValue(Keys[j])
  {
    forall k ensures k in Keys {
      match k
      case TranscriptionStarted => assert Keys[0] == k;
      case TranscriptionFinished => assert Keys[1] == k;
      case TranscriptionError => assert Keys[2] == k;
      case DiagnosisStarted => assert Keys[3] == k;
      case DiagnosisFinished => assert Keys[4] == k;
      case DiagnosisError => assert Keys[5] == k;
      case InformationExtractionStarted => assert Keys[6] == k;
      case InformationExtractionFinished => assert Keys[7] == k;
      case InformationExtractionError => assert Keys[8] == k;
    }
    forall i, j | 0 <= i < j < |Keys| ensures MapValue(Keys[i]) != MapValue(Keys[j]) {
      ValueOfKey(Keys[i]);
    }
  }

  /** Every status the backend enum can store is known to the client, and
      the client knows exactly one more: "transcription_started". */
  lemma ClientStatusesExtendBackend(v: string)
    ensures forall st :: FromValue(TranscriptionModel.StatusValue(st)).Some?
    ensures FromValue(v).Some? && TranscriptionModel.ParseStatus(v).None? <==> v == "transcription_started"
  {
    forall st ensures FromValue(TranscriptionModel.StatusValue(st)).Some? {
      match st
      case TranscriptionFinished =>
      case TranscriptionError =>
      case DiagnosisStarted =>
      case DiagnosisFinished =>
      case DiagnosisError =>
      case InformationExtractionStarted =>
      case InformationExtractionFinished =>
      case InformationExtractionError =>
    }
  }

  /** The request body of `submitTranscription`: exactly one key, the audio
      URL when it is truthy, the text (possibly undefined) otherwise. */
  function RequestBody(audioUrl: Option<string>, text: Option<string>): (r: map<string, Option<string>>)
    ensures |r.Keys| == 1
    ensures TruthyStr(audioUrl) ==> r == map["audio_url" := audioUrl]
    ensures !TruthyStr(audioUrl) ==> r == map["transcription_text" := text]
  {
    var r := if TruthyStr(audioUrl) then map["audio_url" := audioUrl] else map["transcription_text" := text];
    assert r.Keys == if TruthyStr(audioUrl) then {"audio_url"} else {"transcription_text"};
    r
  }

  /** `JSON.stringify` of such an object: undefined members are dropped. */
  function Serialize(body: map<string, Option<string>>): (v: Value)
    ensures v.Obj? && v.fields.Keys <= body.Keys
    ensures forall k :: k in body && body[k].Some? ==> k in v.fields && v.fields[k] == Str(body[k].value)
  {
    Obj(map k | k in body && body[k].Some? :: Str(body[k].value))
  }

  /** What the pipeline entry makes of a submission: a truthy URL goes to the
      audio branch, otherwise truthy text to the text branch; no text at all
      arrives as an empty object and is refused as having no data, and empty
      text as naming neither field. */
  lemma SubmissionAtEntry(audioUrl: Option<string>, text: Option<string>)
    ensures var r := StartProcessTrigger.GetRequestData(Serialize(RequestBody(audioUrl, text)));
      && (TruthyStr(audioUrl) ==> r == StartProcessTrigger.Ok((Str(audioUrl.value), Null)))
      && (!TruthyStr(audioUrl) && TruthyStr(text) ==> r == StartProcessTrigger.Ok((Null, Str(text.value))))
      && (!TruthyStr(audioUrl) && text.None? ==> r == StartProcessTrigger.Raise(StartProcessTrigger.ValueError(StartProcessTrigger.NoBodyError)))
      && (!TruthyStr(audioUrl) && text == Some("") ==> r == StartProcessTrigger.Raise(StartProcessTrigger.ValueError(StartProcessTrigger.NoInputError)))
  {
    var body := Serialize(RequestBody(audioUrl, text));
    if TruthyStr(audioUrl) {
      assert body.fields == map["audio_url" := Str(audioUrl.value)];
    } else if text.Some? {
      assert body.fields == map["transcription_text" := Str(text.value)];
    } else {
      assert body.fields == map[];
    }
  }
}
