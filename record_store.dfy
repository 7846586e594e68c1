/** The document store the stages share, with a journal of what each handler
    did to it and of the external calls it made, in order. Store operations may
    fail: a key in `down` rejects every write (a transport failure), and an
    update of a document that does not exist is rejected as not found. */
module Store {
  import opened Wrappers
  import opened Documents

  /** The external calls a handler makes. */
  datatype Step =
    | DownloadAudio(url: string)
    | TranscribeAudio
    | ExtractInformation
    | IndexSeverityReferences
    | SearchSeverity(query: string)
    | IndexKnowledgeBase
    | SearchKnowledge(query: string)
    | GenerateDiagnosis
    | PlanTreatment
    | ComposeReport
    | GenerateLegacyReport

  /** `doc_ref.set(doc)` replaces the whole document; `doc_ref.update(fields)`
      overwrites the named fields of an existing document. */
  datatype Write = Set(key: Key, doc: Document) | Update(key: Key, fields: Document)

  /** A write attempt and whether the store accepted it, or an external call. */
  datatype Event = Attempt(write: Write, ok: bool) | Call(step: Step)

  datatype StoreState = StoreState(docs: map<Key, Document>, down: set<Key>, journal: seq<Event>)

  predicate Accepts(s: StoreState, w: Write) {
    w.key !in s.down && (w.Update? ==> w.key in s.docs)
  }

  /** `str(e)` of the exception a rejected write raises. */
  function WriteError(s: StoreState, w: Write): string {
    if w.key in s.down then "503 The service is currently unavailable: " + Path(w.key)
    else "404 No document to update: " + Path(w.key)
  }

  /** The document a write leaves under its key. */
  function Written(s: StoreState, w: Write): Document
    requires w.Update? ==> w.key in s.docs
  {
    match w
    case Set(_, doc) => doc
    case Update(k, fields) => s.docs[k] + fields
  }

  /** Performing one write. */
  function Apply(s: StoreState, w: Write): (r: (StoreState, Outcome))
    ensures r.1.Pass? <==> Accepts(s, w)
    ensures r.0.down == s.down && r.0.journal == s.journal + [Attempt(w, r.1.Pass?)]
  {
    if Accepts(s, w) then
      (s.(docs := s.docs[w.key := Written(s, w)], journal := s.journal + [Attempt(w, true)]), Pass)
    else
      (s.(journal := s.journal + [Attempt(w, false)]), Fail(WriteError(s, w)))
  }

  /** Recording an external call. */
  function Record(s: StoreState, step: Step): (r: StoreState)
    ensures r.docs == s.docs && r.down == s.down && r.journal == s.journal + [Call(step)]
  {
    s.(journal := s.journal + [Call(step)])
  }

  /** Regrouping journal segments. */
  lemma Assoc(a: seq<Event>, b: seq<Event>, c: seq<Event>)
    ensures (a + b) + c == a + (b + c)
  {
  }

  /** A write changes at most the document under its own key; an accepted
      write leaves exactly `Written` there. */
  lemma ApplyFrame(s: StoreState, w: Write, k: Key)
    ensures var (s', o) := Apply(s, w);
      && (k != w.key ==> (k in s'.docs <==> k in s.docs) && (k in s.docs ==> s'.docs[k] == s.docs[k]))
      && (o.Pass? ==> w.key in s'.docs && s'.docs[w.key] == Written(s, w))
      && (o.Fail? ==> s'.docs == s.docs)
  {
  }

  /** Re-running a `set` under the same key leaves one document there, equal
      to the last one written, and the same store contents as the last write alone. */
  lemma SetTwiceKeepsLast(s: StoreState, k: Key, d1: Document, d2: Document)
    requires k !in s.down
    ensures var s1 := Apply(s, Set(k, d1)).0;
      var s2 := Apply(s1, Set(k, d2)).0;
      s2.docs == Apply(s, Set(k, d2)).0.docs && s2.docs[k] == d2
  {
  }

  /** An accepted update overwrites the named fields and keeps every other
      field of the document. */
  lemma UpdateKeepsOtherFields(s: StoreState, k: Key, fields: Document, f: string)
    requires Accepts(s, Update(k, fields))
    ensures var s' := Apply(s, Update(k, fields)).0;
      && k in s'.docs
      && (f in fields ==> f in s'.docs[k] && s'.docs[k][f] == fields[f])
      && (f !in fields ==> (f in s'.docs[k] <==> f in s.docs[k]))
      && (f !in fields && f in s.docs[k] ==> s'.docs[k][f] == s.docs[k][f])
  {
  }

  /** The store itself: the documents, the keys whose writes currently fail,
      and the journal. */
  class RecordStore {
    var docs: map<Key, Document>
    var down: set<Key>
    var journal: seq<Event>

    function State(): StoreState
      reads this
    {
      StoreState(docs, down, journal)
    }

    constructor (docs: map<Key, Document>, down: set<Key>)
      ensures State() == StoreState(docs, down, [])
    {
      this.docs := docs;
      this.down := down;
      this.journal := [];
    }

    method Write(w: Write) returns (o: Outcome)
      modifies this
      ensures (State(), o) == Apply(old(State()), w)
    {
      if Accepts(State(), w) {
        var d := Written(State(), w);
        docs := docs[w.key := d];
        journal := journal + [Attempt(w, true)];
        o := Pass;
      } else {
        o := Fail(WriteError(State(), w));
        journal := journal + [Attempt(w, false)];
      }
    }

    method CallExternal(step: Step)
      modifies this
      ensures State() == Record(old(State()), step)
    {
      journal := journal + [Event.Call(step)];
    }

    /** A query `where(field == value)` on one collection, keeping one hit:
        some matching document if there is one, none otherwise. Which of
        several matches the query stream yields first is not modelled. */
    method FirstWhere(c: Collection, field: string, value: Value) returns (r: Option<Document>)
      ensures r.Some? ==> exists k :: k in docs && k.collection == c && Get(docs[k], field) == value && docs[k] == r.value
      ensures r.None? ==> forall k :: k in docs && k.collection == c ==> Get(docs[k], field) != value
    {
      if k :| k in docs && k.collection == c && Get(docs[k], field) == value {
        r := Some(docs[k]);
      } else {
        r := None;
      }
    }
  }
}
