/** Context assembly of the chat endpoints (`_prepare_context_from_search_results`, identical in the
    unified and the enhanced chatbot API) and the retrieval that precedes it in
    `process_chat_message`. The vector store's similarity search is a parameter. */
module Context {
  import opened Results
  import opened Text
  import opened Collections
  import Workflow

  /** A similarity-search hit: the chunk text and the metadata stored with it. */
  datatype SearchResult = SearchResult(content: string, metadata: map<string, string>)

  /** How many hits are rendered and how many characters of each. */
  const TopResults: nat := 3
  const ContentLimit: nat := 500

  const DocumentHeader := "=== RELEVANT DOCUMENT CONTENT ==="

  /** `settings.rag_top_k_results` (unified chatbot) and the literal `top_k` of the enhanced one. */
  const UnifiedTopK: nat := 5
  const EnhancedTopK: nat := 5

  /** `f"Content: {content[:500]}..."`: the ellipsis is appended whatever the length, so even a short
      content is followed by `...`. */
  function ContentLine(content: string): (r: string)
    ensures StartsWith(r, "Content: ")
    ensures |r| == 12 + Min(|content|, ContentLimit) <= 512
    ensures r[9..|r| - 3] <= content && r[|r| - 3..] == "..."
    ensures |content| <= ContentLimit ==> r[9..|r| - 3] == content
  {
    "Content: " + Prefix(content, ContentLimit) + "..."
  }

  /** The lines the hits contribute: for each, its content line followed by a blank line. */
  function ResultLines(results: seq<SearchResult>): (r: seq<string>)
    ensures |r| == 2 * |results|
  {
    if results == [] then [] else [ContentLine(results[0].content), ""] + ResultLines(results[1..])
  }

  /** Hit `k` is rendered as lines `2k` and `2k + 1`. */
  lemma {:induction false} ResultLinesAt(results: seq<SearchResult>, k: nat)
    requires k < |results|
    ensures ResultLines(results)[2 * k] == ContentLine(results[k].content)
    ensures ResultLines(results)[2 * k + 1] == ""
  {
    if k > 0 {
      ResultLinesAt(results[1..], k - 1);
    }
  }

  lemma {:induction false} ResultLinesSnoc(results: seq<SearchResult>, last: SearchResult)
    ensures ResultLines(results + [last]) == ResultLines(results) + [ContentLine(last.content), ""]
  {
    if results != [] {
      assert (results + [last])[1..] == results[1..] + [last];
      ResultLinesSnoc(results[1..], last);
    }
  }

  /** The parts joined into the context: nothing for no hits, otherwise the header and the lines of
      the first three hits. */
  function DocumentParts(results: seq<SearchResult>): (r: seq<string>)
    ensures |r| == if results == [] then 0 else 1 + 2 * Min(|results|, TopResults)
    ensures results != [] ==> r[0] == DocumentHeader
  {
    if results == [] then [] else [DocumentHeader] + ResultLines(results[..Min(|results|, TopResults)])
  }

  /** Of the first three hits, hit `k` is rendered as the content line at part `1 + 2k`, followed
      by a blank part. */
  lemma DocumentPartsAt(results: seq<SearchResult>, k: nat)
    requires k < Min(|results|, TopResults)
    ensures DocumentParts(results)[1 + 2 * k] == ContentLine(results[k].content)
    ensures DocumentParts(results)[2 + 2 * k] == ""
  {
    ResultLinesAt(results[..Min(|results|, TopResults)], k);
  }

  /** The context string handed to the workflow. */
  function DocumentContext(results: seq<SearchResult>): string {
    Join(DocumentParts(results), "\n")
  }

  /** `_prepare_context_from_search_results`: return `""` for no hits, otherwise start from the
      header and append a content line and a blank line for each of the first three hits. */
  method PrepareContext(results: seq<SearchResult>) returns (context: string)
    ensures context == DocumentContext(results)
  {
    if |results| == 0 {
      return "";
    }
    var parts := [DocumentHeader];
    var top := results[..Min(|results|, TopResults)];
    var i := 0;
    while i < |top|
      invariant 0 <= i <= |top|
      invariant parts == [DocumentHeader] + ResultLines(top[..i])
    {
      ResultLinesSnoc(top[..i], top[i]);
      assert top[..i + 1] == top[..i] + [top[i]];
      parts := parts + [ContentLine(top[i].content), ""];
      i := i + 1;
    }
    assert top[..i] == top;
    context := Join(parts, "\n");
  }

  lemma JoinStartsWithFirst(parts: seq<string>, sep: string)
    requires |parts| > 0
    ensures parts[0] <= Join(parts, sep)
  {
  }

  /** The context is empty exactly when the search found nothing. */
  lemma DocumentContextEmptyIff(results: seq<SearchResult>)
    ensures DocumentContext(results) == "" <==> results == []
  {
    if results != [] {
      JoinStartsWithFirst(DocumentParts(results), "\n");
    }
  }

  /** Hits after the third never reach the context. */
  lemma OnlyTopResultsRendered(results: seq<SearchResult>, more: seq<SearchResult>)
    requires |results| >= TopResults
    ensures DocumentContext(results + more) == DocumentContext(results)
  {
    assert (results + more)[..TopResults] == results[..TopResults];
  }

  /** The similarity search of the vector store: query, document id and `top_k` to hits. */
  type Search = (string, string, nat) -> seq<SearchResult>

  /** The context `process_chat_message` builds: it searches, scoped to the document, only when a
      truthy `document_id` argument is given, and is `""` otherwise. */
  function ChatContext(search: Search, message: string, documentId: Option<string>, topK: nat): string {
    if Truthy(documentId) then DocumentContext(search(message, documentId.value, topK)) else ""
  }

  /** The API response metadata: the workflow's metadata with `document_id` and `context_used`
      (`bool(context)`) added, overriding any workflow keys of the same name. */
  function ChatMetadata(workflowMeta: Workflow.Metadata, documentId: Option<string>, context: string): (m: Workflow.Metadata)
    ensures m.Keys == workflowMeta.Keys + {"document_id", "context_used"}
    ensures m["context_used"] == Workflow.Bool(context != "")
    ensures m["document_id"] == Workflow.OptStr(documentId)
    ensures forall k :: k in workflowMeta && k != "document_id" && k != "context_used" ==> m[k] == workflowMeta[k]
  {
    workflowMeta["document_id" := Workflow.OptStr(documentId)]["context_used" := Workflow.Bool(context != "")]
  }

  /** `context_used` is reported exactly when a document was named and the search found something
      in it. */
  lemma ContextUsedIff(search: Search, message: string, documentId: Option<string>, topK: nat,
                       workflowMeta: Workflow.Metadata)
    ensures ChatMetadata(workflowMeta, documentId, ChatContext(search, message, documentId, topK))["context_used"]
      == Workflow.Bool(Truthy(documentId) && search(message, documentId.value, topK) != [])
  {
    if Truthy(documentId) {
      DocumentContextEmptyIff(search(message, documentId.value, topK));
    }
  }
}
