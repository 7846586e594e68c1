/** The `Queue` record for audio submissions awaiting transcription. */
module QueueModel {
  import opened Wrappers
  import opened Documents

  /** Exactly waiting / finished / error. */
  datatype QueueStatus = Waiting | Finished | Error

  function QueueStatusValue(s: QueueStatus): (v: string)
    ensures v in {"waiting", "finished", "error"}
  {
    match s
    case Waiting => "waiting"
    case Finished => "finished"
    case Error => "error"
  }

  /** `session_id` and `audio_url` are required. */
  datatype Queue = Queue(
    sessionId: string,
    audioUrl: string,
    status: Option<QueueStatus>,
    createdAt: Option<Timestamp>)

  /** `Queue(session_id=..., audio_url=...)`: status defaults to WAITING and
      created_at to None. */
  function NewQueue(sessionId: string, audioUrl: string): (q: Queue)
    ensures q.sessionId == sessionId && q.audioUrl == audioUrl
    ensures q.status == Some(Waiting) && q.createdAt == None
  {
    Queue(sessionId, audioUrl, Some(Waiting), None)
  }

  function OptQueueStatus(o: Option<QueueStatus>): Value {
    match o
    case None => Null
    case Some(s) => Str(QueueStatusValue(s))
  }

  function DumpQueue(q: Queue): (d: Document)
    ensures d.Keys == {"session_id", "audio_url", "status", "created_at"}
  {
    map[
      "session_id" := Str(q.sessionId),
      "audio_url" := Str(q.audioUrl),
      "status" := OptQueueStatus(q.status),
      "created_at" := OptTime(q.createdAt)]
  }

  function ParseQueueStatus(v: string): (r: Option<QueueStatus>)
    ensures r.Some? ==> QueueStatusValue(r.value) == v
  {
    if v == "waiting" then Some(Waiting)
    else if v == "finished" then Some(Finished)
    else if v == "error" then Some(Error)
    else None
  }

  function QueueStatusField(d: Document): Result<Option<QueueStatus>> {
    if "status" !in d then Success(Some(Waiting))
    else match d["status"]
      case Null => Success(None)
      case Str(v) =>
        (match ParseQueueStatus(v)
         case Some(s) => Success(Some(s))
         case None => Failure("status: Input should be 'waiting', 'finished' or 'error'"))
      case _ => Failure(WrongType("status"))
  }

  /** `Queue(**data)`: a stored queue entry validated back into a record. */
  function ParseQueue(d: Document): (r: Result<Queue>)
    ensures r.Success? ==> Get(d, "session_id") == Str(r.value.sessionId)
    ensures r.Success? ==> Get(d, "audio_url") == Str(r.value.audioUrl)
  {
    var sessionId :- ReqStr(d, "session_id");
    var audioUrl :- ReqStr(d, "audio_url");
    var status :- QueueStatusField(d);
    var createdAt :- OptTimeField(d, "created_at");
    Success(Queue(sessionId, audioUrl, status, createdAt))
  }

  lemma ParseDumpQueue(q: Queue)
    ensures ParseQueue(DumpQueue(q)) == Success(q)
  {
    var d := DumpQueue(q);
    assert ReqStr(d, "session_id") == Success(q.sessionId);
    assert ReqStr(d, "audio_url") == Success(q.audioUrl);
    if q.status.Some? {
      match q.status.value
      case Waiting =>
      case Finished =>
      case Error =>
    }
    assert QueueStatusField(d) == Success(q.status);
    assert OptTimeField(d, "created_at") == Success(q.createdAt);
  }
}
