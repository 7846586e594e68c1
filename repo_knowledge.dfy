/** The medical knowledge base: similarity search over disease documents and
    the full documents behind the hits. The vector index and the documents
    folder are parameters. */
module KnowledgeBaseRepository {
  import opened Wrappers

  /** A document with its `disease_name` metadata. */
  datatype KbDocument = KbDocument(content: string, diseaseName: string)

  /** Python's ordering of strings: lexicographic by code point. */
  predicate StrLe(a: string, b: string)
    decreases |a|
  {
    a == [] || (b != [] && (a[0] < b[0] || (a[0] == b[0] && StrLe(a[1..], b[1..]))))
  }

  lemma {:induction false} StrLeTotal(a: string, b: string)
    ensures StrLe(a, b) || StrLe(b, a)
    decreases |a|
  {
    if a != [] && b != [] && a[0] == b[0] {
      StrLeTotal(a[1..], b[1..]);
    }
  }

  predicate SortedByDisease(s: seq<KbDocument>) {
    forall i :: 0 <= i < |s| - 1 ==> StrLe(s[i].diseaseName, s[i + 1].diseaseName)
  }

  function Insert(x: KbDocument, s: seq<KbDocument>): (r: seq<KbDocument>)
    requires SortedByDisease(s)
    ensures SortedByDisease(r)
    ensures multiset(r) == multiset(s) + multiset{x}
    ensures |r| == |s| + 1
    ensures r != [] && (r[0] == x || (s != [] && r[0] == s[0]))
  {
    if s == [] || StrLe(x.diseaseName, s[0].diseaseName) then
      [x] + s
    else
      StrLeTotal(x.diseaseName, s[0].diseaseName);
      var rest := Insert(x, s[1..]);
      assert s == [s[0]] + s[1..];
      [s[0]] + rest
  }

  /** `similarity_search`: exactly the index's hits, reordered ascending by
      `disease_name`. */
  function SortByDisease(hits: seq<KbDocument>): (r: seq<KbDocument>)
    ensures SortedByDisease(r)
    ensures multiset(r) == multiset(hits)
  {
    if hits == [] then []
    else
      assert hits == [hits[0]] + hits[1..];
      Insert(hits[0], SortByDisease(hits[1..]))
  }

  /** The file that holds the full document of a disease. */
  function FileName(diseaseName: string): string {
    diseaseName + ".md"
  }

  predicate Distinct(names: seq<string>) {
    forall i, j :: 0 <= i < j < |names| ==> names[i] != names[j]
  }

  function Names(docs: seq<KbDocument>): (r: seq<string>)
    ensures |r| == |docs| && forall i :: 0 <= i < |docs| ==> r[i] == docs[i].diseaseName
  {
    seq(|docs|, i requires 0 <= i < |docs| => docs[i].diseaseName)
  }

  /** `retrieve_full_docs`: for each distinct `disease_name` among the matches,
      in the set's (unspecified) order, the whole `<name>.md` file; a name
      without a file is skipped with a warning. */
  method RetrieveFullDocs(matches: seq<KbDocument>, folder: map<string, string>) returns (docs: seq<KbDocument>)
    ensures Distinct(Names(docs))
    ensures forall d :: d in docs ==>
      (exists m :: m in matches && m.diseaseName == d.diseaseName)
      && FileName(d.diseaseName) in folder && d.content == folder[FileName(d.diseaseName)]
    ensures forall m :: m in matches && FileName(m.diseaseName) in folder ==>
      exists d :: d in docs && d.diseaseName == m.diseaseName
  {
    var diseaseNames := set m | m in matches :: m.diseaseName;
    var remaining := diseaseNames;
    docs := [];
    while remaining != {}
      invariant remaining <= diseaseNames
      invariant Distinct(Names(docs))
      invariant forall d :: d in docs ==> d.diseaseName in diseaseNames - remaining
      invariant forall d :: d in docs ==>
        FileName(d.diseaseName) in folder && d.content == folder[FileName(d.diseaseName)]
      invariant forall n :: n in diseaseNames - remaining && FileName(n) in folder ==>
        exists d :: d in docs && d.diseaseName == n
      decreases remaining
    {
      var name :| name in remaining;
      if FileName(name) in folder {
        docs := docs + [KbDocument(folder[FileName(name)], name)];
      }
      remaining := remaining - {name};
    }
  }

  predicate EndsWithMd(f: string) {
    |f| >= 3 && f[|f| - 3..] == ".md"
  }

  /** The glob `*.md`: the name ends in ".md" and, like every `*` pattern,
      does not start with a dot. */
  predicate MatchesMdGlob(f: string) {
    EndsWithMd(f) && f[0] != '.'
  }

  /** `os.path.splitext(basename)[0]` for a name matched by the glob. */
  function Stem(f: string): (n: string)
    requires MatchesMdGlob(f)
    ensures FileName(n) == f
  {
    assert f == f[..|f| - 3] + f[|f| - 3..];
    f[..|f| - 3]
  }

  /** The documents `read_local_documents` builds from a folder listing. */
  function MdDocuments(listing: seq<string>, folder: map<string, string>): (r: seq<KbDocument>)
    requires forall f :: f in listing ==> f in folder
  {
    if listing == [] then []
    else
      var rest := MdDocuments(listing[1..], folder);
      if MatchesMdGlob(listing[0]) then [KbDocument(folder[listing[0]], Stem(listing[0]))] + rest
      else rest
  }

  /** `read_local_documents`: every `*.md` file of the folder, in the glob's
      order, as a document whose content is the file and whose
      `disease_name` is the file name without its extension. */
  method ReadLocalDocuments(listing: seq<string>, folder: map<string, string>) returns (docs: seq<KbDocument>)
    requires forall f :: f in listing ==> f in folder
    ensures docs == MdDocuments(listing, folder)
  {
    docs := [];
    var i := |listing|;
    while i > 0
      invariant 0 <= i <= |listing|
      invariant docs == MdDocuments(listing[i..], folder)
    {
      i := i - 1;
      assert listing[i..][1..] == listing[i + 1..];
      if MatchesMdGlob(listing[i]) {
        docs := [KbDocument(folder[listing[i]], Stem(listing[i]))] + docs;
      }
    }
  }

  /** Every document read from the folder is found again by its name:
      its `<name>.md` file is the file it was read from. */
  lemma {:induction false} MdDocumentsResolve(listing: seq<string>, folder: map<string, string>, d: KbDocument)
    requires forall f :: f in listing ==> f in folder
    requires d in MdDocuments(listing, folder)
    ensures FileName(d.diseaseName) in listing && folder[FileName(d.diseaseName)] == d.content
  {
    if listing != [] {
      var rest := MdDocuments(listing[1..], folder);
      if d in rest {
        MdDocumentsResolve(listing[1..], folder, d);
      }
    }
  }

  /** `load_documents`: each document is split and added to the index in
      order; the first failure (reading, index creation or insertion) ends
      the load and is only logged. Returns the names that were inserted. */
  method LoadDocuments(read: Result<seq<KbDocument>>, indexReady: Outcome, add: KbDocument -> Outcome)
    returns (inserted: seq<string>)
    ensures read.Failure? || indexReady.Fail? ==> inserted == []
    ensures read.Success? && indexReady.Pass? ==>
      |inserted| <= |read.value| && inserted == Names(read.value[..|inserted|])
      && (forall i :: 0 <= i < |inserted| ==> add(read.value[i]).Pass?)
      && (|inserted| < |read.value| ==> add(read.value[|inserted|]).Fail?)
  {
    inserted := [];
    if read.Failure? || indexReady.Fail? {
      return;
    }
    var docs := read.value;
    var i := 0;
    while i < |docs|
      invariant 0 <= i <= |docs| && inserted == Names(docs[..i])
      invariant forall j :: 0 <= j < i ==> add(docs[j]).Pass?
    {
      if add(docs[i]).Fail? {
        return;
      }
      inserted := inserted + [docs[i].diseaseName];
      i := i + 1;
    }
  }
}
