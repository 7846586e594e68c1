/** Store operations on `transcriptions/{session_id}`. */
module TranscriptionRepository {
  import opened Wrappers
  import opened Documents
  import opened TranscriptionModel
  import opened Store

  function TranscriptionKey(sessionId: string): Key {
    Key(TranscriptionsCollection, sessionId)
  }

  /** `save_transcription`: a whole-document `set` of the dump under the
      record's own session id, with `created_at` replaced by the server
      timestamp whatever the record held. */
  function SaveTranscriptionWrite(t: Transcription): (w: Write)
    ensures w.Set? && w.key == TranscriptionKey(t.sessionId)
    ensures ParseTranscription(w.doc) == Success(t.(createdAt := ServerTimestamp))
  {
    ParseDumpTranscription(t.(createdAt := ServerTimestamp));
    assert DumpTranscription(t)["created_at" := Time(ServerTimestamp)]
        == DumpTranscription(t.(createdAt := ServerTimestamp));
    Set(TranscriptionKey(t.sessionId), DumpTranscription(t)["created_at" := Time(ServerTimestamp)])
  }

  method SaveTranscription(store: RecordStore, t: Transcription) returns (o: Outcome)
    modifies store
    ensures (store.State(), o) == Apply(old(store.State()), SaveTranscriptionWrite(t))
  {
    o := store.Write(SaveTranscriptionWrite(t));
  }

  /** `set_processing_status`: an update of exactly status, error_message and
      updated_at; the message defaults to "". */
  function StatusWrite(sessionId: string, status: TranscriptionStatus, errorMessage: string): (w: Write)
    ensures w.Update? && w.key == TranscriptionKey(sessionId)
    ensures w.fields.Keys == {"status", "error_message", "updated_at"}
  {
    Update(TranscriptionKey(sessionId), StatusUpdate(StatusValue(status), errorMessage))
  }

  method SetProcessingStatus(store: RecordStore, sessionId: string, status: TranscriptionStatus, errorMessage: string)
    returns (o: Outcome)
    modifies store
    ensures (store.State(), o) == Apply(old(store.State()), StatusWrite(sessionId, status, errorMessage))
  {
    o := store.Write(StatusWrite(sessionId, status, errorMessage));
  }

  /** An accepted status write leaves the new status and message readable
      through validation-relevant fields and changes no other field; a write
      without a message clears an earlier error message. */
  lemma StatusWriteEffect(s: StoreState, sessionId: string, status: TranscriptionStatus, msg: string, f: string)
    requires Accepts(s, StatusWrite(sessionId, status, msg))
    ensures var d := Apply(s, StatusWrite(sessionId, status, msg)).0.docs[TranscriptionKey(sessionId)];
      && d["status"] == Str(StatusValue(status))
      && d["error_message"] == Str(msg)
      && (f !in {"status", "error_message", "updated_at"} ==>
            (f in d <==> f in s.docs[TranscriptionKey(sessionId)])
            && (f in d ==> d[f] == s.docs[TranscriptionKey(sessionId)][f]))
  {
    var w := StatusWrite(sessionId, status, msg);
    UpdateKeepsOtherFields(s, w.key, w.fields, "status");
    UpdateKeepsOtherFields(s, w.key, w.fields, "error_message");
    UpdateKeepsOtherFields(s, w.key, w.fields, f);
  }

  /** A status write names its session, status and message: two writes
      are equal only when all three agree. */
  lemma StatusWriteInjective(a: string, sa: TranscriptionStatus, ma: string, b: string, sb: TranscriptionStatus, mb: string)
    requires StatusWrite(a, sa, ma) == StatusWrite(b, sb, mb)
    ensures a == b && sa == sb && ma == mb
  {
    var wa := StatusWrite(a, sa, ma);
    assert wa.fields["status"] == Str(StatusValue(sa));
    assert StatusWrite(b, sb, mb).fields["status"] == Str(StatusValue(sb));
    ParseStatusExact(StatusValue(sa));
    assert wa.key == TranscriptionKey(a) && wa.key == TranscriptionKey(b);
  }

  /** Firestore timestamps become ISO strings when the key is present and
      truthy; a value that is not a datetime has no `isoformat` and fails.
      (The server sentinel never comes back from a real read; it is kept.) */
  function IsoField(d: Document, name: string): (r: Result<Document>)
    ensures r.Success? ==> r.value.Keys == d.Keys
    ensures r.Success? ==> forall f :: f in d && f != name ==> r.value[f] == d[f]
    ensures name !in d || !Truthy(d[name]) ==> r == Success(d)
    ensures name in d && d[name].Time? && d[name].t.Instant? ==> r == Success(d[name := Str(d[name].t.iso)])
  {
    if name in d && Truthy(d[name]) then
      match d[name]
      case Time(Instant(iso)) => Success(d[name := Str(iso)])
      case Time(ServerTimestamp) => Success(d)
      case _ => Failure("object has no attribute 'isoformat'")
    else Success(d)
  }

  function IsoTimestamps(d: Document): (r: Result<Document>)
    ensures r.Success? ==> r.value.Keys == d.Keys
    ensures r.Success? ==> forall f :: f in d && f != "created_at" && f != "updated_at" ==> r.value[f] == d[f]
  {
    var d1 :- IsoField(d, "created_at");
    IsoField(d1, "updated_at")
  }

  /** `get_transcription_by_session_id`: a transcription whose `session_id`
      field matches (the source keeps the first the query streams; which one
      that is, is not modelled), with its timestamps rendered as ISO strings;
      a ValueError when none matches. */
  predicate HasTranscription(docs: map<Key, Document>, sessionId: string) {
    exists k :: k in docs && k.collection == TranscriptionsCollection && Get(docs[k], "session_id") == Str(sessionId)
  }

  method GetTranscriptionBySessionId(store: RecordStore, sessionId: string) returns (r: Result<Document>)
    ensures !HasTranscription(store.docs, sessionId) ==>
      r == Failure("No transcription found for session_id: " + sessionId)
    ensures HasTranscription(store.docs, sessionId) ==>
      (exists k :: k in store.docs && k.collection == TranscriptionsCollection
        && Get(store.docs[k], "session_id") == Str(sessionId) && r == IsoTimestamps(store.docs[k]))
  {
    var found := store.FirstWhere(TranscriptionsCollection, "session_id", Str(sessionId));
    if found.None? {
      r := Failure("No transcription found for session_id: " + sessionId);
    } else {
      r := IsoTimestamps(found.value);
    }
  }
}
