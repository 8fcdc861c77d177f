/** The older enhanced chatbot API over a hybrid knowledge base: a permanent financial knowledge
    base plus per-session uploads. The knowledge manager itself lies outside this model; its
    search results and the lookups the chatbot delegates to it are parameters. */
module HybridChatbot {
  import opened Results
  import opened Text
  import opened Collections
  import opened Context

  const PermanentHeader := "=== PERMANENT FINANCIAL KNOWLEDGE ==="
  const SessionHeader := "=== USER UPLOADED DOCUMENTS ==="

  /** How many permanent and how many session hits are rendered. */
  const PermanentTop: nat := 3
  const SessionTop: nat := 2

  /** The metadata key naming a permanent hit and a session hit. */
  const PermanentNameKey := "title"
  const SessionNameKey := "filename"

  /** `search_knowledge`'s answer: the permanent hits, the session hits and their combination. */
  datatype HybridResults = HybridResults(
    permanentResults: seq<SearchResult>,
    sessionResults: seq<SearchResult>,
    combinedResults: seq<SearchResult>)

  /** `f"Source: {metadata.get(key, 'Unknown')}"`. */
  function SourceLine(result: SearchResult, key: string): string {
    "Source: " + (if key in result.metadata then result.metadata[key] else "Unknown")
  }

  /** For each hit: its source line, its content line and a blank line. */
  function EntryLines(results: seq<SearchResult>, key: string): (r: seq<string>)
    ensures |r| == 3 * |results|
  {
    if results == [] then []
    else [SourceLine(results[0], key), ContentLine(results[0].content), ""] + EntryLines(results[1..], key)
  }

  lemma {:induction false} EntryLinesAt(results: seq<SearchResult>, key: string, k: nat)
    requires k < |results|
    ensures EntryLines(results, key)[3 * k] == SourceLine(results[k], key)
    ensures EntryLines(results, key)[3 * k + 1] == ContentLine(results[k].content)
    ensures EntryLines(results, key)[3 * k + 2] == ""
  {
    if k > 0 {
      EntryLinesAt(results[1..], key, k - 1);
    }
  }

  lemma {:induction false} EntryLinesSnoc(results: seq<SearchResult>, last: SearchResult, key: string)
    ensures EntryLines(results + [last], key) ==
      EntryLines(results, key) + [SourceLine(last, key), ContentLine(last.content), ""]
  {
    if results != [] {
      assert (results + [last])[1..] == results[1..] + [last];
      EntryLinesSnoc(results[1..], last, key);
    }
  }

  /** One section of the context: absent when there are no hits, otherwise the header and the
      entries of the first `top` hits. */
  function Section(header: string, results: seq<SearchResult>, top: nat, key: string): (r: seq<string>)
    ensures |r| == if results == [] then 0 else 1 + 3 * Min(|results|, top)
    ensures results != [] ==> r[0] == header
  {
    if results == [] then [] else [header] + EntryLines(results[..Min(|results|, top)], key)
  }

  /** The parts of the two-section context: the permanent section, then the session section. */
  function HybridParts(r: HybridResults): seq<string> {
    Section(PermanentHeader, r.permanentResults, PermanentTop, PermanentNameKey) +
    Section(SessionHeader, r.sessionResults, SessionTop, SessionNameKey)
  }

  function HybridContext(r: HybridResults): string {
    Join(HybridParts(r), "\n")
  }

  /** Append the section for `results` to `parts`, as the two loops of the source do. */
  method AppendSection(parts: seq<string>, header: string, results: seq<SearchResult>, top: nat, key: string)
    returns (out: seq<string>)
    ensures out == parts + Section(header, results, top, key)
  {
    out := parts;
    if |results| == 0 {
      return;
    }
    out := out + [header];
    ghost var head := out;
    var shown := results[..Min(|results|, top)];
    var i := 0;
    while i < |shown|
      invariant 0 <= i <= |shown|
      invariant out == head + EntryLines(shown[..i], key)
    {
      var entry := [SourceLine(shown[i], key), ContentLine(shown[i].content), ""];
      EntryLinesSnoc(shown[..i], shown[i], key);
      assert shown[..i + 1] == shown[..i] + [shown[i]];
      assert head + (EntryLines(shown[..i], key) + entry) == out + entry;
      out := out + entry;
      i := i + 1;
    }
    assert shown[..i] == shown;
    assert out == parts + ([header] + EntryLines(shown, key));
  }

  /** `_prepare_context_from_search_results` of the hybrid chatbot: a permanent-knowledge section
      for the first three permanent hits, then an uploaded-documents section for the first two
      session hits, joined by newlines. */
  method PrepareHybridContext(r: HybridResults) returns (context: string)
    ensures context == HybridContext(r)
  {
    var parts := AppendSection([], PermanentHeader, r.permanentResults, PermanentTop, PermanentNameKey);
    assert parts == Section(PermanentHeader, r.permanentResults, PermanentTop, PermanentNameKey);
    parts := AppendSection(parts, SessionHeader, r.sessionResults, SessionTop, SessionNameKey);
    context := Join(parts, "\n");
  }

  /** The number of parts is `(p > 0 ? 1 + 3·min(3, p) : 0) + (s > 0 ? 1 + 3·min(2, s) : 0)`. */
  lemma HybridPartCount(r: HybridResults)
    ensures |HybridParts(r)| ==
      (if r.permanentResults == [] then 0 else 1 + 3 * Min(|r.permanentResults|, 3)) +
      (if r.sessionResults == [] then 0 else 1 + 3 * Min(|r.sessionResults|, 2))
  {
  }

  /** A section header appears only with hits to show, and the permanent section always comes first:
      the context opens with the permanent header iff there are permanent hits, and the session
      header follows the whole permanent section. */
  lemma SectionOrder(r: HybridResults)
    ensures |HybridParts(r)| > 0 && HybridParts(r)[0] == PermanentHeader <==> r.permanentResults != []
    ensures r.sessionResults != [] ==>
      var at := |Section(PermanentHeader, r.permanentResults, PermanentTop, PermanentNameKey)|;
      at < |HybridParts(r)| && HybridParts(r)[at] == SessionHeader
  {
    var perm := Section(PermanentHeader, r.permanentResults, PermanentTop, PermanentNameKey);
    var sess := Section(SessionHeader, r.sessionResults, SessionTop, SessionNameKey);
    if r.permanentResults == [] && r.sessionResults != [] {
      assert HybridParts(r)[0] == sess[0] == SessionHeader;
      assert SessionHeader[4] == 'U' && PermanentHeader[4] == 'P';
    }
  }

  /** Permanent hit `k` (of the first three) is named by its title, or `Unknown`. */
  lemma PermanentEntryAt(r: HybridResults, k: nat)
    requires k < Min(|r.permanentResults|, PermanentTop)
    ensures HybridParts(r)[1 + 3 * k] == SourceLine(r.permanentResults[k], PermanentNameKey)
    ensures HybridParts(r)[2 + 3 * k] == ContentLine(r.permanentResults[k].content)
  {
    EntryLinesAt(r.permanentResults[..Min(|r.permanentResults|, PermanentTop)], PermanentNameKey, k);
  }

  /** Session hit `k` (of the first two) follows the permanent section and is named by its file
      name, or `Unknown`. */
  lemma SessionEntryAt(r: HybridResults, k: nat)
    requires k < Min(|r.sessionResults|, SessionTop)
    ensures var at := |Section(PermanentHeader, r.permanentResults, PermanentTop, PermanentNameKey)|;
      HybridParts(r)[at + 1 + 3 * k] == SourceLine(r.sessionResults[k], SessionNameKey) &&
      HybridParts(r)[at + 2 + 3 * k] == ContentLine(r.sessionResults[k].content)
  {
    EntryLinesAt(r.sessionResults[..Min(|r.sessionResults|, SessionTop)], SessionNameKey, k);
  }

  /** No hits in either part gives the empty context, and any hit gives a non-empty one. */
  lemma HybridContextEmptyIff(r: HybridResults)
    ensures HybridContext(r) == "" <==> r.permanentResults == [] && r.sessionResults == []
  {
    if r.permanentResults != [] || r.sessionResults != [] {
      var parts := HybridParts(r);
      assert parts[0] == PermanentHeader || parts[0] == SessionHeader;
      JoinStartsWithFirst(parts, "\n");
    }
  }

  /** The `knowledge_sources` entry of the response metadata. */
  datatype KnowledgeSources = KnowledgeSources(permanentResults: nat, sessionResults: nat, totalResults: nat)

  function CountSources(r: HybridResults): (k: KnowledgeSources)
    ensures k.permanentResults == |r.permanentResults| && k.sessionResults == |r.sessionResults|
    ensures k.totalResults == |r.combinedResults|
  {
    KnowledgeSources(|r.permanentResults|, |r.sessionResults|, |r.combinedResults|)
  }

  /** The reported counts agree with the context: a section is rendered iff its count is positive,
      and never more entries than it counts. */
  lemma CountsMatchContext(r: HybridResults)
    ensures var k := CountSources(r);
      (k.permanentResults > 0 <==> |HybridParts(r)| > 0 && HybridParts(r)[0] == PermanentHeader) &&
      |HybridParts(r)| <= (if k.permanentResults > 0 then 1 + 3 * k.permanentResults else 0) +
                          (if k.sessionResults > 0 then 1 + 3 * k.sessionResults else 0)
  {
    SectionOrder(r);
  }

  /** A session's document as the knowledge manager lists it. */
  datatype SessionDocument = SessionDocument(documentId: string, fields: map<string, string>)

  /** The knowledge manager's session document list, by session id. */
  type SessionDocuments = string -> seq<SessionDocument>

  /** `get_document_info`: without a (truthy) session id there is nothing to find; otherwise the
      first document of the session with the requested id, found by a linear search. */
  method GetDocumentInfo(documentId: string, sessionId: Option<string>, sessionDocuments: SessionDocuments)
    returns (r: Option<SessionDocument>)
    ensures !Truthy(sessionId) ==> r == None
    ensures Truthy(sessionId) ==>
      var docs := sessionDocuments(sessionId.value);
      (r.None? <==> forall i :: 0 <= i < |docs| ==> docs[i].documentId != documentId) &&
      (r.Some? ==>
        exists i :: 0 <= i < |docs| && docs[i] == r.value && r.value.documentId == documentId &&
          forall j :: 0 <= j < i ==> docs[j].documentId != documentId)
  {
    if Truthy(sessionId) {
      var docs := sessionDocuments(sessionId.value);
      var i := 0;
      while i < |docs|
        invariant 0 <= i <= |docs|
        invariant forall j :: 0 <= j < i ==> docs[j].documentId != documentId
      {
        if docs[i].documentId == documentId {
          return Some(docs[i]);
        }
        i := i + 1;
      }
    }
    return None;
  }

  /** An entry of `list_documents`: a session document, or a permanent domain with its count. */
  datatype Listing = Uploaded(doc: SessionDocument) | Domain(domain: string, documentCount: nat, knowledgeType: string)

  /** `list_documents`: the session's documents for a (truthy) session id, otherwise one permanent
      entry per domain of the knowledge statistics, in the statistics' order. */
  function ListDocuments(sessionId: Option<string>, sessionDocuments: SessionDocuments,
                         domainCounts: seq<(string, nat)>): (r: seq<Listing>)
    ensures Truthy(sessionId) ==>
      |r| == |sessionDocuments(sessionId.value)| &&
      forall i :: 0 <= i < |r| ==> r[i] == Uploaded(sessionDocuments(sessionId.value)[i])
    ensures !Truthy(sessionId) ==>
      |r| == |domainCounts| &&
      forall i :: 0 <= i < |r| ==>
        r[i].Domain? && r[i].domain == domainCounts[i].0 && r[i].documentCount == domainCounts[i].1 &&
        r[i].knowledgeType == "permanent"
  {
    if Truthy(sessionId) then
      var docs := sessionDocuments(sessionId.value);
      seq(|docs|, i requires 0 <= i < |docs| => Uploaded(docs[i]))
    else
      seq(|domainCounts|, i requires 0 <= i < |domainCounts| => Domain(domainCounts[i].0, domainCounts[i].1, "permanent"))
  }

  /** `delete_document`: with a (truthy) session id only the session removal is attempted, otherwise
      only the permanent removal; the answer is whichever was attempted. */
  function DeleteDocument(documentId: string, sessionId: Option<string>,
                          removeSession: (string, string) -> bool, removePermanent: string -> bool): (deleted: bool)
    ensures Truthy(sessionId) ==> deleted == removeSession(sessionId.value, documentId)
    ensures !Truthy(sessionId) ==> deleted == removePermanent(documentId)
  {
    if Truthy(sessionId) then removeSession(sessionId.value, documentId) else removePermanent(documentId)
  }
}
