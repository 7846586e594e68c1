/** The HTTP entry of the pipeline, `start_process`: validate the request
    body, mint a session id, and either queue the audio for transcription or
    store the supplied text as a finished transcription. */
module StartProcessTrigger {
  import opened Wrappers
  import opened Documents
  import opened TranscriptionModel
  import opened QueueModel
  import opened Store
  import opened TranscriptionRepository
  import opened QueueRepository

  /** A Python exception, split by the handler that catches it. */
  datatype Raised = ValueError(message: string) | OtherError(message: string)

  datatype Checked<T> = Ok(value: T) | Raise(exc: Raised)

  const NoBodyError: string := "No JSON data provided"
  const NoInputError: string := "either audio_url or transcription_text must be provided"

  /** The Python type name of a decoded JSON value. */
  function TypeName(v: Value): string {
    match v
    case Null => "NoneType"
    case Bool(_) => "bool"
    case Str(_) => "str"
    case Int(_) => "int"
    case Num(_) => "float"
    case List(_) => "list"
    case Obj(_) => "dict"
    case Time(_) => "datetime"
  }

  /** `get_request_data`: a falsy body and a body with neither field raise
      ValueError; a truthy body that is not an object has no `get`;
      otherwise the two fields are returned as they are. */
  function GetRequestData(body: Value): (r: Checked<(Value, Value)>)
    ensures !Truthy(body) ==> r == Raise(ValueError(NoBodyError))
    ensures r.Ok? <==> body.Obj? && (Truthy(Get(body.fields, "audio_url")) || Truthy(Get(body.fields, "transcription_text")))
    ensures r.Ok? ==> r.value == (Get(body.fields, "audio_url"), Get(body.fields, "transcription_text"))
    ensures (body.Obj? && body.fields != map[] && !Truthy(Get(body.fields, "audio_url"))
             && !Truthy(Get(body.fields, "transcription_text"))) ==> r == Raise(ValueError(NoInputError))
  {
    if !Truthy(body) then Raise(ValueError(NoBodyError))
    else if !body.Obj? then Raise(OtherError("'" + TypeName(body) + "' object has no attribute 'get'"))
    else
      var audioUrl := Get(body.fields, "audio_url");
      var text := Get(body.fields, "transcription_text");
      if !Truthy(audioUrl) && !Truthy(text) then Raise(ValueError(NoInputError))
      else Ok((audioUrl, text))
  }

  /** An HTTP response: the status code and the JSON object of its body. */
  datatype Response = Response(status: int, body: map<string, string>)

  function ErrorResponse(e: Raised): (r: Response)
    ensures e.ValueError? ==> r == Response(400, map["error" := e.message])
    ensures e.OtherError? ==> r == Response(500, map["error" := "Internal server error: " + e.message])
  {
    match e
    case ValueError(m) => Response(400, map["error" := m])
    case OtherError(m) => Response(500, map["error" := "Internal server error: " + m])
  }

  /** pydantic's complaint about a field that should be a string; its
      ValidationError is a ValueError. */
  function NotAString(model: string, field: string): string {
    "1 validation error for " + model + "\n" + field + "\n  Input should be a valid string"
  }

  /** The audio-branch response reads `TranscriptionStatus.TRANSCRIPTION_WAITING`,
      a member the enum does not have. The text is `str` of the AttributeError
      as Python 3.12 and later word it; earlier versions give only the
      member's name. */
  const MissingWaitingMember: string := "type object 'TranscriptionStatus' has no attribute 'TRANSCRIPTION_WAITING'"

  /** The `audio_url` field of the direct-text record: None, or a string. */
  function OptionalString(model: string, field: string, v: Value): Checked<Option<string>> {
    match v
    case Null => Ok(None)
    case Str(s) => Ok(Some(s))
    case _ => Raise(ValueError(NotAString(model, field)))
  }

  /** The record stored for text submitted directly. */
  function DirectTranscription(sessionId: string, text: string, audioUrl: Option<string>): (t: Transcription)
    ensures t.sessionId == sessionId && t.text == Some(text) && t.audioUrl == audioUrl
    ensures t.status == Some(TranscriptionFinished)
  {
    Transcription(sessionId, audioUrl, Some(text), None, None, Some(TranscriptionFinished), None, ServerTimestamp, None)
  }

  /** The queue branch: the entry is written, and building the response then
      fails, so a stored entry is answered with a 500. */
  function QueueBranch(s: StoreState, sessionId: string, audioUrl: Value): (r: (StoreState, Response))
    requires Truthy(audioUrl)
    ensures r.0.down == s.down
    ensures r.1.status != 200
    ensures !audioUrl.Str? ==> r == (s, Response(400, map["error" := NotAString("Queue", "audio_url")]))
    ensures audioUrl.Str? ==>
      var w := AddToQueueWrite(NewQueue(sessionId, audioUrl.s));
      && r.0.journal == s.journal + [Attempt(w, Accepts(s, w))]
      && r.1.status == 500
      && (Accepts(s, w) ==> r.1.body == map["error" := "Internal server error: " + MissingWaitingMember])
      && (Accepts(s, w) ==>
            QueueKey(sessionId) in r.0.docs
            && ParseQueue(r.0.docs[QueueKey(sessionId)]) == Success(Queue(sessionId, audioUrl.s, Some(Waiting), Some(ServerTimestamp))))
  {
    if !audioUrl.Str? then (s, ErrorResponse(ValueError(NotAString("Queue", "audio_url"))))
    else
      var w := AddToQueueWrite(NewQueue(sessionId, audioUrl.s));
      var (s1, o) := Apply(s, w);
      if o.Fail? then (s1, ErrorResponse(OtherError(o.error)))
      else (s1, ErrorResponse(OtherError(MissingWaitingMember)))
  }

  /** The direct-text branch: one finished transcription is stored and the
      session id is returned with status 200. */
  function TextBranch(s: StoreState, sessionId: string, audioUrl: Value, text: Value): (r: (StoreState, Response))
    requires Truthy(text)
    ensures r.0.down == s.down
    ensures r.1.status == 200 ==>
      && text.Str? && OptionalString("Transcription", "audio_url", audioUrl).Ok?
      && var t := DirectTranscription(sessionId, text.s, OptionalString("Transcription", "audio_url", audioUrl).value);
      && r.0.journal == s.journal + [Attempt(SaveTranscriptionWrite(t), true)]
      && TranscriptionKey(sessionId) in r.0.docs
      && ParseTranscription(r.0.docs[TranscriptionKey(sessionId)]) == Success(t)
      && r.1.body == map["session_id" := sessionId, "status" := StatusValue(TranscriptionFinished)]
    ensures r.1.status != 200 ==> r.0.docs == s.docs
  {
    if !text.Str? then (s, ErrorResponse(ValueError(NotAString("Transcription", "text"))))
    else
      match OptionalString("Transcription", "audio_url", audioUrl)
      case Raise(e) => (s, ErrorResponse(e))
      case Ok(url) =>
        var t := DirectTranscription(sessionId, text.s, url);
        var (s1, o) := Apply(s, SaveTranscriptionWrite(t));
        if o.Fail? then (s1, ErrorResponse(OtherError(o.error)))
        else (s1, Response(200, map["session_id" := sessionId, "status" := StatusValue(TranscriptionFinished)]))
  }

  /** `start_process` on the store's value, for a request body and the fresh
      session id the request mints. An invalid body writes nothing and is
      answered 400 (or 500 when it is not an object); a truthy audio_url takes
      precedence over the text. */
  function StartSpec(s: StoreState, body: Value, freshId: string): (r: (StoreState, Response))
    ensures r.0.down == s.down
    ensures GetRequestData(body).Raise? ==> r == (s, ErrorResponse(GetRequestData(body).exc))
    ensures !Truthy(body) ==> r == (s, Response(400, map["error" := NoBodyError]))
    ensures GetRequestData(body).Ok? && Truthy(GetRequestData(body).value.0) ==>
      r == QueueBranch(s, freshId, GetRequestData(body).value.0)
    ensures GetRequestData(body).Ok? && !Truthy(GetRequestData(body).value.0) ==>
      r == TextBranch(s, freshId, GetRequestData(body).value.0, GetRequestData(body).value.1)
  {
    match GetRequestData(body)
    case Raise(e) => (s, ErrorResponse(e))
    case Ok((audioUrl, text)) =>
      if Truthy(audioUrl) then QueueBranch(s, freshId, audioUrl)
      else TextBranch(s, freshId, audioUrl, text)
  }

  /** Only text-only requests can succeed, and a success stores exactly the
      transcription under the new session id and never a queue entry. */
  lemma SuccessOnlyForText(s: StoreState, body: Value, freshId: string)
    ensures var (s', resp) := StartSpec(s, body, freshId);
      resp.status == 200 ==>
        && body.Obj? && !Truthy(Get(body.fields, "audio_url"))
        && Get(body.fields, "transcription_text").Str?
        && |s'.journal| == |s.journal| + 1
        && s'.journal[|s.journal|].write.key == TranscriptionKey(freshId)
        && resp.body["session_id"] == freshId
  {
    var (s', resp) := StartSpec(s, body, freshId);
    if resp.status == 200 {
      var (audioUrl, text) := GetRequestData(body).value;
      assert !Truthy(audioUrl);
    }
  }

  method StartProcess(store: RecordStore, body: Value, freshId: string) returns (resp: Response)
    modifies store
    ensures (store.State(), resp) == StartSpec(old(store.State()), body, freshId)
  {
    var request := GetRequestData(body);
    if request.Raise? {
      return ErrorResponse(request.exc);
    }
    var (audioUrl, text) := request.value;
    if Truthy(audioUrl) {
      if !audioUrl.Str? {
        return ErrorResponse(ValueError(NotAString("Queue", "audio_url")));
      }
      var o := AddToQueue(store, NewQueue(freshId, audioUrl.s));
      if o.Fail? {
        return ErrorResponse(OtherError(o.error));
      }
      return ErrorResponse(OtherError(MissingWaitingMember));
    }
    if !text.Str? {
      return ErrorResponse(ValueError(NotAString("Transcription", "text")));
    }
    var url := OptionalString("Transcription", "audio_url", audioUrl);
    if url.Raise? {
      return ErrorResponse(url.exc);
    }
    var o := SaveTranscription(store, DirectTranscription(freshId, text.s, url.value));
    if o.Fail? {
      return ErrorResponse(OtherError(o.error));
    }
    resp := Response(200, map["session_id" := freshId, "status" := StatusValue(TranscriptionFinished)]);
  }
}
