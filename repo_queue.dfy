/** Store operations on `queue/{session_id}`. */
module QueueRepository {
  import opened Wrappers
  import opened Documents
  import opened QueueModel
  import opened Store

  function QueueKey(sessionId: string): Key {
    Key(QueueCollection, sessionId)
  }

  /** `add_to_queue`: a whole-document `set` of the dump under the entry's
      session id; `created_at` becomes the server timestamp whatever the entry held. */
  function AddToQueueWrite(q: Queue): (w: Write)
    ensures w.Set? && w.key == QueueKey(q.sessionId)
    ensures "created_at" in w.doc && w.doc["created_at"] == Time(ServerTimestamp)
    ensures ParseQueue(w.doc) == Success(q.(createdAt := Some(ServerTimestamp)))
  {
    ParseDumpQueue(q.(createdAt := Some(ServerTimestamp)));
    assert DumpQueue(q)["created_at" := Time(ServerTimestamp)]
        == DumpQueue(q.(createdAt := Some(ServerTimestamp)));
    Set(QueueKey(q.sessionId), DumpQueue(q)["created_at" := Time(ServerTimestamp)])
  }

  method AddToQueue(store: RecordStore, q: Queue) returns (o: Outcome)
    modifies store
    ensures (store.State(), o) == Apply(old(store.State()), AddToQueueWrite(q))
  {
    o := store.Write(AddToQueueWrite(q));
  }

  /** `set_queue_processing_status`: an update of exactly status,
      error_message (default "") and updated_at. */
  function QueueStatusWrite(sessionId: string, status: QueueStatus, errorMessage: string): (w: Write)
    ensures w.Update? && w.key == QueueKey(sessionId)
    ensures w.fields == StatusUpdate(QueueStatusValue(status), errorMessage)
  {
    Update(QueueKey(sessionId), StatusUpdate(QueueStatusValue(status), errorMessage))
  }

  method SetQueueProcessingStatus(store: RecordStore, sessionId: string, status: QueueStatus, errorMessage: string)
    returns (o: Outcome)
    modifies store
    ensures (store.State(), o) == Apply(old(store.State()), QueueStatusWrite(sessionId, status, errorMessage))
  {
    o := store.Write(QueueStatusWrite(sessionId, status, errorMessage));
  }
}
