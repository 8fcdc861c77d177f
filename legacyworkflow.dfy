/** The older `FinancialWorkflow`: the same graph with default label `"rag"`, retrieval scoped to the
    request's document, an analytics prompt for analytics questions over CSV data, summary and quiz
    agents that need a document id, and agent error paths that leave `metadata` unset. */
module LegacyWorkflow {
  import opened Results
  import opened Text
  import opened Collections
  import opened Routing
  import opened Workflow

  const LegacyQaErrorReply := "I encountered an error while processing your financial question. Please try again."
  const MissingIdSummaryReply := "Please specify a document ID to generate a summary."
  const MissingIdMcqReply := "Please specify a document ID to generate MCQ questions."
  const NoDocumentSummaryReply := "No document content found for summarization."
  const NoDocumentMcqReply := "No document content found for MCQ generation."

  /** An agent's `except` path in this version: `error` and the reply are set, `metadata` is not. */
  function LegacyFailure(reply: string, e: string): Update {
    Update(reply, None, None, Some(e))
  }

  /** The `file_type` of each retrieved chunk (`'unknown'` when absent). */
  function DocumentTypes(chunks: seq<Chunk>): set<string> {
    set c | c in chunks :: ChunkField(c, "file_type", "unknown")
  }

  /** The `document_types.add(...)` loop. */
  method CollectDocumentTypes(chunks: seq<Chunk>) returns (types: set<string>)
    ensures types == DocumentTypes(chunks)
  {
    types := {};
    var i := 0;
    while i < |chunks|
      invariant 0 <= i <= |chunks|
      invariant types == DocumentTypes(chunks[..i])
    {
      assert chunks[..i + 1] == chunks[..i] + [chunks[i]];
      types := types + {ChunkField(chunks[i], "file_type", "unknown")};
      i := i + 1;
    }
    assert chunks[..i] == chunks;
  }

  /** The prompt of the RAG agent: the analytics template for analytics questions when CSV data was
      retrieved, the standard template otherwise. */
  function ChoosePrompt(query: string, chunks: seq<Chunk>): Prompt {
    var types := DocumentTypes(chunks);
    if IsAnalyticsQuery(query) && "csv" in types then AnalyticsPrompt(ContextText(chunks), query, types)
    else StandardPrompt(ContextText(chunks), query, types)
  }

  /** The analytics prompt is chosen exactly when the question is an analytics question and some
      retrieved chunk comes from a CSV file. */
  lemma AnalyticsPromptIff(query: string, chunks: seq<Chunk>)
    ensures ChoosePrompt(query, chunks).AnalyticsPrompt? <==>
      IsAnalyticsQuery(query) && exists k :: 0 <= k < |chunks| && ChunkField(chunks[k], "file_type", "unknown") == "csv"
  {
    if "csv" in DocumentTypes(chunks) {
      var c :| c in chunks && ChunkField(c, "file_type", "unknown") == "csv";
      var k :| 0 <= k < |chunks| && chunks[k] == c;
    }
    if exists k :: 0 <= k < |chunks| && ChunkField(chunks[k], "file_type", "unknown") == "csv" {
      var k :| 0 <= k < |chunks| && ChunkField(chunks[k], "file_type", "unknown") == "csv";
      assert chunks[k] in chunks;
    }
  }

  /** What the older `_rag_agent_node` assigns: search within the request's document only. */
  function LegacyQaReply(svc: Services, message: string, documentId: Option<string>): Update {
    match svc.search(message, TopK, documentId)
    case Failure(e) => LegacyFailure(LegacyQaErrorReply, e)
    case Success(chunks) =>
      if chunks == [] then
        Update(NoContextReply, Some([]), Some(map["context_chunks_found" := Int(0)]), None)
      else
        match svc.llm(ChoosePrompt(message, chunks))
        case Failure(e) => LegacyFailure(LegacyQaErrorReply, e)
        case Success(answer) =>
          match Sources(chunks)
          case Failure(e) => LegacyFailure(LegacyQaErrorReply, e)
          case Success(sources) =>
            Update(Strip(answer), Some(sources), Some(map[
              "context_chunks_found" := Int(|chunks|),
              "document_id" := OptStr(documentId),
              "agent_type" := Str("rag"),
              "is_analytics_query" := Bool(IsAnalyticsQuery(message)),
              "document_types" := Names(DocumentTypes(chunks))]), None)
  }

  method LegacyRagAgentNode(state: FinancialState, svc: Services)
    modifies state
    ensures state.Snapshot() == Apply(old(state.Snapshot()), LegacyQaReply(svc, state.message, state.documentId))
    ensures state.nextAgent == old(state.nextAgent)
  {
    var query := state.message;
    var found := svc.search(query, TopK, state.documentId);
    if found.Failure? {
      state.Set(LegacyFailure(LegacyQaErrorReply, found.error));
      return;
    }
    var chunks := found.value;
    if chunks == [] {
      state.Set(Update(NoContextReply, Some([]), Some(map["context_chunks_found" := Int(0)]), None));
      return;
    }
    var types := CollectDocumentTypes(chunks);
    var prompt;
    if IsAnalyticsQuery(query) && "csv" in types {
      prompt := AnalyticsPrompt(ContextText(chunks), query, types);
    } else {
      prompt := StandardPrompt(ContextText(chunks), query, types);
    }
    var answer := svc.llm(prompt);
    if answer.Failure? {
      state.Set(LegacyFailure(LegacyQaErrorReply, answer.error));
      return;
    }
    var sources := BuildSources(chunks);
    if sources.Failure? {
      state.Set(LegacyFailure(LegacyQaErrorReply, sources.error));
      return;
    }
    state.Set(Update(Strip(answer.value), Some(sources.value), Some(map[
      "context_chunks_found" := Int(|chunks|),
      "document_id" := OptStr(state.documentId),
      "agent_type" := Str("rag"),
      "is_analytics_query" := Bool(IsAnalyticsQuery(query)),
      "document_types" := Names(types)]), None));
  }

  /** Retrieval is scoped to the request's document: two vector stores that agree on that one search
      give the same reply. With nothing retrieved, the metadata holds only the zero count. */
  lemma LegacyQaScoped(svc: Services, other: Services, message: string, documentId: Option<string>)
    requires svc.search(message, TopK, documentId) == other.search(message, TopK, documentId)
    requires svc.llm == other.llm
    ensures LegacyQaReply(svc, message, documentId) == LegacyQaReply(other, message, documentId)
    ensures svc.search(message, TopK, documentId) == Success([]) ==>
      LegacyQaReply(svc, message, documentId).metadata == Some(map["context_chunks_found" := Int(0)])
  {
  }

  /** What the older summary (`quiz == false`) or quiz (`quiz == true`) agent assigns. */
  function DocumentReply(svc: Services, documentId: Option<string>, quiz: bool): Update {
    var errorReply := if quiz then McqErrorReply else SummaryErrorReply;
    if !Truthy(documentId) then
      Update(if quiz then MissingIdMcqReply else MissingIdSummaryReply, Some([]), Some(map[]), None)
    else
      match svc.documentChunks(documentId.value)
      case Failure(e) => LegacyFailure(errorReply, e)
      case Success(chunks) =>
        if chunks == [] then
          Update(if quiz then NoDocumentMcqReply else NoDocumentSummaryReply, Some([]), Some(map[]), None)
        else
          var content := Prefix(Join(Contents(chunks), "\n\n"), DocumentLimit);
          var prompt := if quiz then DocumentMcqPrompt(content, NumQuestions) else DocumentSummaryPrompt(content);
          match svc.llm(prompt)
          case Failure(e) => LegacyFailure(errorReply, e)
          case Success(answer) =>
            if quiz then
              Update(Strip(answer), Some([DocumentSource("mcq", documentId.value)]),
                Some(map["agent_type" := Str("mcq"), "num_questions" := Int(NumQuestions)]), None)
            else
              Update(Strip(answer), Some([DocumentSource("summary", documentId.value)]),
                Some(map["agent_type" := Str("summarization"),
                         "word_count" := Int(WordCount(Join(Contents(chunks), "\n\n")))]), None)
  }

  method DocumentAgentNode(state: FinancialState, svc: Services, quiz: bool)
    modifies state
    ensures state.Snapshot() == Apply(old(state.Snapshot()), DocumentReply(svc, state.documentId, quiz))
    ensures state.nextAgent == old(state.nextAgent)
  {
    var errorReply := if quiz then McqErrorReply else SummaryErrorReply;
    if !Truthy(state.documentId) {
      state.Set(Update(if quiz then MissingIdMcqReply else MissingIdSummaryReply, Some([]), Some(map[]), None));
      return;
    }
    var documentId := state.documentId.value;
    var found := svc.documentChunks(documentId);
    if found.Failure? {
      state.Set(LegacyFailure(errorReply, found.error));
      return;
    }
    var chunks := found.value;
    if chunks == [] {
      state.Set(Update(if quiz then NoDocumentMcqReply else NoDocumentSummaryReply, Some([]), Some(map[]), None));
      return;
    }
    var fullText := Join(Contents(chunks), "\n\n");
    var content := Prefix(fullText, DocumentLimit);
    var answer := svc.llm(if quiz then DocumentMcqPrompt(content, NumQuestions) else DocumentSummaryPrompt(content));
    if answer.Failure? {
      state.Set(LegacyFailure(errorReply, answer.error));
      return;
    }
    if quiz {
      state.Set(Update(Strip(answer.value), Some([DocumentSource("mcq", documentId)]),
        Some(map["agent_type" := Str("mcq"), "num_questions" := Int(NumQuestions)]), None));
    } else {
      state.Set(Update(Strip(answer.value), Some([DocumentSource("summary", documentId)]),
        Some(map["agent_type" := Str("summarization"), "word_count" := Int(WordCount(fullText))]), None));
    }
  }

  /** Without a document id the summary and quiz agents ask for one and consult nothing: the reply
      is the same for every vector store and model. */
  lemma DocumentIdRequired(svc: Services, other: Services, documentId: Option<string>, quiz: bool)
    requires !Truthy(documentId)
    ensures DocumentReply(svc, documentId, quiz) == DocumentReply(other, documentId, quiz)
    ensures DocumentReply(svc, documentId, quiz).response == (if quiz then MissingIdMcqReply else MissingIdSummaryReply)
    ensures DocumentReply(svc, documentId, quiz).sources == Some([])
  {
  }

  /** A successful summary or quiz cites the requested document itself. */
  lemma DocumentSourceIsRequested(svc: Services, documentId: Option<string>, quiz: bool)
    requires Truthy(documentId)
    ensures var u := DocumentReply(svc, documentId, quiz);
      u.error == None && u.sources != Some([]) ==>
        u.sources == Some([DocumentSource(if quiz then "mcq" else "summary", documentId.value)])
  {
  }

  /** The update of the node a route reaches in this version. */
  function LegacyNodeReply(svc: Services, node: Node, r: Request): Update {
    match node
    case RagAgent => LegacyQaReply(svc, r.message, r.documentId)
    case SummarizationAgent => DocumentReply(svc, r.documentId, false)
    case McqAgent => DocumentReply(svc, r.documentId, true)
    case _ => ErrorHandlerReply(None)
  }

  /** The older `process_request`: `agent_type` defaults to `"rag"`. */
  function LegacyRespond(svc: Services, r: Request): Response {
    var outcome := RouteDecision(Legacy, None, Some(Route(Legacy, r.message, r.agentType)));
    match Branch(Legacy, outcome)
    case None => FailureResponse("'" + outcome + "'")
    case Some(node) =>
      var out := Apply(Outputs("", [], map[], None), LegacyNodeReply(svc, node, r));
      Response(out.response, ReportedAgentType(out.metadata, "rag"), out.sources, out.metadata)
  }

  method LegacyProcessRequest(svc: Services, r: Request) returns (resp: Response)
    ensures resp == LegacyRespond(svc, r)
  {
    var state := new FinancialState(r.message, r.documentId, r.agentType, None);
    RouterNode(Legacy, state);
    var outcome := RouteDecision(Legacy, state.error, state.nextAgent);
    var target := Branch(Legacy, outcome);
    if target.None? {
      return FailureResponse("'" + outcome + "'");
    }
    var node := target.value;
    if node == RagAgent {
      LegacyRagAgentNode(state, svc);
    } else if node == SummarizationAgent {
      DocumentAgentNode(state, svc, false);
    } else if node == McqAgent {
      DocumentAgentNode(state, svc, true);
    } else {
      ErrorHandlerNode(state);
    }
    resp := Response(state.response, ReportedAgentType(state.metadata, "rag"), state.sources, state.metadata);
  }

  /** A failing agent leaves `metadata` empty, so the response reports the default agent `"rag"`
      whichever agent failed. */
  lemma LegacyFailureReportsRag(svc: Services, r: Request)
    requires var outcome := Route(Legacy, r.message, r.agentType);
      outcome in {"rag", "summarization", "mcq"}
    requires var node := Branch(Legacy, Route(Legacy, r.message, r.agentType)).value;
      LegacyNodeReply(svc, node, r).error.Some?
    ensures LegacyRespond(svc, r).agentType == "rag"
  {
    var node := Branch(Legacy, Route(Legacy, r.message, r.agentType)).value;
    if node == RagAgent {
      LegacyQaFailureUnset(svc, r.message, r.documentId);
    } else {
      DocumentFailureUnset(svc, r.documentId, node == McqAgent);
    }
  }

  lemma LegacyQaFailureUnset(svc: Services, message: string, documentId: Option<string>)
    ensures var u := LegacyQaReply(svc, message, documentId); u.error.Some? ==> u.metadata.None?
  {
  }

  lemma DocumentFailureUnset(svc: Services, documentId: Option<string>, quiz: bool)
    ensures var u := DocumentReply(svc, documentId, quiz); u.error.Some? ==> u.metadata.None?
  {
  }
}
