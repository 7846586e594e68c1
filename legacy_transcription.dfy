/** The deployed transcription stage, `transcription_handler`: fired when a
    queue entry is created, it transcribes the entry's audio and marks the
    entry FINISHED. Unlike the other stages it re-raises every failure, and
    its error-status write is not protected. */
module LegacyTranscriptionHandler {
  import opened Wrappers
  import opened Documents
  import opened QueueModel
  import opened Store
  import opened Oracles
  import opened QueueRepository
  import opened TranscriptionRepository
  import TranscriptionService

  const AssertionMessage: string := "Session ID is required"

  function QueueFinished(sessionId: string): Write {
    QueueStatusWrite(sessionId, Finished, "")
  }

  function QueueError(sessionId: string): Write {
    QueueStatusWrite(sessionId, Error, "")
  }

  /** The body of the `try`, for a set session id and a present document:
      validate the entry, transcribe its audio under the parameter's session
      id, then mark the entry FINISHED. FINISHED is attempted only after the
      transcription was saved. */
  function Body(s: StoreState, caps: Capabilities, sessionId: string, doc: Document): (r: (StoreState, Outcome))
    ensures r.0.down == s.down
    ensures ParseQueue(doc).Failure? ==> r == (s, Fail(ParseQueue(doc).error))
    ensures ParseQueue(doc).Success? ==>
      var (s1, t) := TranscriptionService.ProcessSpec(s, caps, ParseQueue(doc).value.audioUrl, sessionId);
      && (t.Failure? ==> r == (s1, Fail(t.error)))
      && (t.Success? ==> r == Apply(s1, QueueFinished(sessionId)))
    ensures r.1.Pass? <==>
      && ParseQueue(doc).Success?
      && TranscriptionService.ProcessSpec(s, caps, ParseQueue(doc).value.audioUrl, sessionId).1.Success?
      && Accepts(TranscriptionService.ProcessSpec(s, caps, ParseQueue(doc).value.audioUrl, sessionId).0, QueueFinished(sessionId))
  {
    match ParseQueue(doc)
    case Failure(e) => (s, Fail(e))
    case Success(q) =>
      var (s1, t) := TranscriptionService.ProcessSpec(s, caps, q.audioUrl, sessionId);
      if t.Failure? then (s1, Fail(t.error))
      else Apply(s1, QueueFinished(sessionId))
  }

  /** The handler on the store's value; a `Fail` outcome is an exception
      raised to the dispatcher. A missing document is a silent no-op. Any
      failure of the body is followed by an unguarded attempt to mark the
      entry ERROR, and then re-raised; when that write itself fails, its
      error is what escapes. */
  function HandlerSpec(s: StoreState, caps: Capabilities, param: Option<string>, data: Option<Document>): (r: (StoreState, Outcome))
    ensures r.0.down == s.down
    ensures !TruthyStr(param) ==> r == (s, Fail(AssertionMessage))
    ensures TruthyStr(param) && data.None? ==> r == (s, Pass)
    ensures TruthyStr(param) && data.Some? ==>
      var (s1, o) := Body(s, caps, param.value, data.value);
      var w := QueueError(param.value);
      && (o.Pass? ==> r == (s1, Pass))
      && (o.Fail? ==> r.0 == Apply(s1, w).0
                      && r.1 == (if Accepts(s1, w) then o else Fail(WriteError(s1, w))))
    ensures TruthyStr(param) && data.Some? ==> (r.1.Pass? <==> Body(s, caps, param.value, data.value).1.Pass?)
  {
    if !TruthyStr(param) then (s, Fail(AssertionMessage))
    else if data.None? then (s, Pass)
    else
      var (s1, o) := Body(s, caps, param.value, data.value);
      if o.Pass? then (s1, Pass)
      else
        var (s2, o2) := Apply(s1, QueueError(param.value));
        if o2.Fail? then (s2, o2) else (s2, o)
  }

  /** A successful run saved the transcription and then the accepted
      FINISHED status: those are its last two effects. */
  lemma {:induction false} SuccessSavedThenFinished(s: StoreState, caps: Capabilities, param: Option<string>, data: Option<Document>)
    requires TruthyStr(param) && data.Some? && HandlerSpec(s, caps, param, data).1.Pass?
    ensures var r := HandlerSpec(s, caps, param, data).0;
      && |r.journal| >= |s.journal| + 2
      && r.journal[|r.journal| - 1] == Attempt(QueueFinished(param.value), true)
      && r.journal[|r.journal| - 2].Attempt? && r.journal[|r.journal| - 2].ok
      && r.journal[|r.journal| - 2].write.key == TranscriptionKey(param.value)
  {
    var q := ParseQueue(data.value).value;
    var (s1, t) := TranscriptionService.ProcessSpec(s, caps, q.audioUrl, param.value);
    assert s1.journal[|s1.journal| - 1] == Attempt(SaveTranscriptionWrite(t.value), true);
  }

  method Handler(store: RecordStore, caps: Capabilities, param: Option<string>, data: Option<Document>) returns (o: Outcome)
    modifies store
    ensures (store.State(), o) == HandlerSpec(old(store.State()), caps, param, data)
  {
    if !TruthyStr(param) {
      return Fail(AssertionMessage);
    }
    if data.None? {
      return Pass;
    }
    var sessionId := param.value;
    var q := ParseQueue(data.value);
    if q.Failure? {
      o := Fail(q.error);
    } else {
      var t := TranscriptionService.Process(store, caps, q.value.audioUrl, sessionId);
      if t.Failure? {
        o := Fail(t.error);
      } else {
        o := SetQueueProcessingStatus(store, sessionId, Finished, "");
      }
    }
    if o.Fail? {
      var o2 := SetQueueProcessingStatus(store, sessionId, Error, "");
      if o2.Fail? {
        o := o2;
      }
    }
  }
}
