/** The current `FinancialWorkflow`: a shared state record that the router node and one agent node
    update in place, with the vector store and the language model as parameters. */
module Workflow {
  import opened Results
  import opened Text
  import opened Collections
  import opened Routing

  /** `settings.rag_top_k_results`, `settings.mcq_num_questions`, and the two slice lengths the nodes use. */
  const TopK: nat := 5
  const NumQuestions: nat := 5
  const DocumentLimit: nat := 4000
  const SourceLimit: nat := 200

  /** The values the nodes put in a `metadata` dictionary; `Names` is a Python `set` turned into a
      list, whose order the model leaves open. */
  datatype Value = Str(s: string) | Int(i: int) | Bool(b: bool) | Names(items: set<string>) | Null

  type Metadata = map<string, Value>

  /** An optional string as a dictionary value: `None` stays `None`. */
  function OptStr(s: Option<string>): Value {
    if s.Some? then Str(s.value) else Null
  }

  /** A chunk returned by the vector store: its text and, when present, its `metadata` dictionary. */
  datatype Chunk = Chunk(content: string, metadata: Option<map<string, string>>)

  /** `chunk.get('metadata', {}).get(key, default)`. */
  function ChunkField(c: Chunk, key: string, default: string): string {
    if c.metadata.Some? && key in c.metadata.value then c.metadata.value[key] else default
  }

  /** One entry of a response's `sources`: a retrieved excerpt (its relevance score is left out),
      or a whole-document reference from the summary and quiz agents. */
  datatype Source =
    | Excerpt(content: string, metadata: map<string, string>, documentType: string)
    | DocumentSource(kind: string, documentId: string)

  /** `content[:200] + "..." if len(content) > 200 else content`. */
  function TruncateSource(content: string): (r: string)
    ensures |r| <= SourceLimit + 3
    ensures Prefix(content, SourceLimit) <= r
    ensures |content| <= SourceLimit <==> r == content && |r| <= SourceLimit
  {
    if |content| > SourceLimit then content[..SourceLimit] + "..." else content
  }

  /** The source entry of one chunk; `chunk['metadata']` raises `KeyError` when it is missing. */
  function Excerpted(c: Chunk): Source
    requires c.metadata.Some?
  {
    Excerpt(TruncateSource(c.content), c.metadata.value, ChunkField(c, "file_type", "unknown"))
  }

  /** The source list of the RAG agents: one excerpt per chunk, in order, or the `KeyError` of the
      first chunk without metadata. */
  function Sources(chunks: seq<Chunk>): Result<seq<Source>> {
    if forall k :: 0 <= k < |chunks| ==> chunks[k].metadata.Some? then
      Success(seq(|chunks|, k requires 0 <= k < |chunks| && chunks[k].metadata.Some? => Excerpted(chunks[k])))
    else Failure("'metadata'")
  }

  /** The `for chunk in context_chunks: sources.append(...)` loop. */
  method BuildSources(chunks: seq<Chunk>) returns (r: Result<seq<Source>>)
    ensures r == Sources(chunks)
  {
    var acc: seq<Source> := [];
    var i := 0;
    while i < |chunks|
      invariant 0 <= i <= |chunks| && |acc| == i
      invariant forall k :: 0 <= k < i ==> chunks[k].metadata.Some? && acc[k] == Excerpted(chunks[k])
    {
      if chunks[i].metadata.None? {
        assert !chunks[i].metadata.Some?;
        return Failure("'metadata'");
      }
      acc := acc + [Excerpted(chunks[i])];
      i := i + 1;
    }
    assert acc == seq(|chunks|, k requires 0 <= k < |chunks| && chunks[k].metadata.Some? => Excerpted(chunks[k]));
    r := Success(acc);
  }

  /** Every successful source list has one entry per chunk, each at most 203 characters long and
      starting with the first 200 characters of its chunk. */
  lemma SourcesOnePerChunk(chunks: seq<Chunk>)
    requires Sources(chunks).Success?
    ensures var s := Sources(chunks).value;
      |s| == |chunks| &&
      forall k :: 0 <= k < |s| ==>
        s[k].Excerpt? && |s[k].content| <= SourceLimit + 3 && Prefix(chunks[k].content, SourceLimit) <= s[k].content
  {
  }

  /** An entry of `conversation_history`: a `ChatMessage` object, a dictionary, or anything else. */
  datatype HistoryItem = ChatMessage(role: string, content: string) | Entry(fields: map<string, string>) | Unrecognised

  predicate Recognised(h: HistoryItem) { !h.Unrecognised? }

  function AsDict(h: HistoryItem): map<string, string> {
    match h
    case ChatMessage(role, content) => map["role" := role, "content" := content]
    case Entry(fields) => fields
    case Unrecognised => map[]
  }

  /** `_convert_conversation_history`, as a reference definition: keep the recognised entries in
      order, objects turned into `{role, content}` dictionaries and dictionaries as they are. */
  function Converted(h: seq<HistoryItem>): seq<map<string, string>> {
    var kept := Filter(h, Recognised);
    seq(|kept|, k requires 0 <= k < |kept| => AsDict(kept[k]))
  }

  /** The conversion loop; a missing or empty history gives `[]`. */
  method ConvertHistory(history: Option<seq<HistoryItem>>) returns (converted: seq<map<string, string>>)
    ensures converted == Converted(history.GetOr([]))
  {
    var h := history.GetOr([]);
    converted := [];
    var i := 0;
    while i < |h|
      invariant 0 <= i <= |h|
      invariant converted == Converted(h[..i])
    {
      FilterSnoc(h[..i], h[i], Recognised);
      assert h[..i + 1] == h[..i] + [h[i]];
      if h[i].ChatMessage? {
        converted := converted + [map["role" := h[i].role, "content" := h[i].content]];
      } else if h[i].Entry? {
        converted := converted + [h[i].fields];
      }
      i := i + 1;
    }
    assert h[..i] == h;
  }

  /** A history of chat messages converts entry by entry, order preserved; unrecognised entries are
      dropped without disturbing the rest. */
  lemma ConvertedMessages(h: seq<HistoryItem>, extra: HistoryItem)
    requires forall k :: 0 <= k < |h| ==> h[k].ChatMessage?
    ensures |Converted(h)| == |h|
    ensures forall k :: 0 <= k < |h| ==> Converted(h)[k] == map["role" := h[k].role, "content" := h[k].content]
    ensures extra.Unrecognised? ==> Converted(h + [extra]) == Converted(h)
  {
    FilterAllKept(h, Recognised);
    FilterSnoc(h, extra, Recognised);
  }

  /** One line of the "Previous conversation" block; a dictionary without `role` or `content` raises. */
  function MessageLine(m: map<string, string>): Result<string> {
    if "role" !in m then Failure("'role'")
    else if "content" !in m then Failure("'content'")
    else Success((if m["role"] == "user" then "User" else "Assistant") + ": " + m["content"] + "\n")
  }

  function HistoryLines(msgs: seq<map<string, string>>): Result<string> {
    if msgs == [] then Success("")
    else
      var line :- MessageLine(msgs[0]);
      var rest :- HistoryLines(msgs[1..]);
      Success(line + rest)
  }

  /** The conversation block a node adds to its prompt: nothing for an empty history, else the heading
      and one line for each of the last `n` messages. */
  function ConversationContext(converted: seq<map<string, string>>, n: nat, heading: string): Result<string> {
    if converted == [] then Success("")
    else
      var lines :- HistoryLines(LastN(converted, n));
      Success(heading + lines)
  }

  const QaHistoryHeading := "\n\nPrevious conversation:\n"
  const AgentHistoryHeading := "\n\nPrevious conversation context:\n"

  /** Only the last `n` messages matter: older history never reaches a prompt. */
  lemma OlderHistoryIgnored(older: seq<map<string, string>>, recent: seq<map<string, string>>, n: nat, heading: string)
    requires |recent| >= n > 0
    ensures ConversationContext(older + recent, n, heading) == ConversationContext(recent, n, heading)
  {
    var all := older + recent;
    assert LastN(all, n) == LastN(recent, n) by {
      forall k | 0 <= k < n ensures LastN(all, n)[k] == LastN(recent, n)[k] {
        assert all[|all| - n + k] == recent[|recent| - n + k];
      }
    }
  }

  /** What a node sends to the language model. */
  datatype Prompt =
    | QaPrompt(context: string, question: string, complexity: string)
    | SummaryPrompt(documentContent: string, conversationContext: string)
    | McqPrompt(documentContent: string, numQuestions: nat, conversationContext: string)
    | AnalyticsPrompt(context: string, question: string, documentTypes: set<string>)
    | StandardPrompt(context: string, question: string, documentTypes: set<string>)
    | DocumentSummaryPrompt(documentContent: string)
    | DocumentMcqPrompt(documentContent: string, numQuestions: nat)

  /** The services outside the model: vector-store search (query, top k, document filter), all chunks,
      one document's chunks, and the language model; each may raise. */
  datatype Services = Services(
    search: (string, nat, Option<string>) -> Result<seq<Chunk>>,
    allChunks: Result<seq<Chunk>>,
    documentChunks: string -> Result<seq<Chunk>>,
    llm: Prompt -> Result<string>)

  /** The output fields of the state. */
  datatype Outputs = Outputs(response: string, sources: seq<Source>, metadata: Metadata, error: Option<string>)

  /** What one node path assigns: `response` always, the other fields only where the path sets them. */
  datatype Update = Update(response: string, sources: Option<seq<Source>>, metadata: Option<Metadata>, error: Option<string>)

  function Apply(o: Outputs, u: Update): Outputs {
    Outputs(
      u.response,
      if u.sources.Some? then u.sources.value else o.sources,
      if u.metadata.Some? then u.metadata.value else o.metadata,
      if u.error.Some? then u.error else o.error)
  }

  /** `FinancialState`: the inputs stay fixed, the nodes update the rest in place. */
  class FinancialState {
    const message: string
    const documentId: Option<string>
    const agentType: Option<string>
    const history: Option<seq<HistoryItem>>
    var response: string
    var sources: seq<Source>
    var metadata: Metadata
    var nextAgent: Option<string>
    var error: Option<string>

    /** The `initial_state` of `process_request`. */
    constructor (message: string, documentId: Option<string>, agentType: Option<string>, history: Option<seq<HistoryItem>>)
      ensures this.message == message && this.documentId == documentId
      ensures this.agentType == agentType && this.history == history
      ensures Snapshot() == Outputs("", [], map[], None) && nextAgent == None
    {
      this.message := message;
      this.documentId := documentId;
      this.agentType := agentType;
      this.history := history;
      response := "";
      sources := [];
      metadata := map[];
      nextAgent := None;
      error := None;
    }

    function Snapshot(): Outputs
      reads this
    {
      Outputs(response, sources, metadata, error)
    }

    /** The assignments `state[...] = ...` of one node path. */
    method Set(u: Update)
      modifies this
      ensures Snapshot() == Apply(old(Snapshot()), u) && nextAgent == old(nextAgent)
    {
      response := u.response;
      if u.sources.Some? {
        sources := u.sources.value;
      }
      if u.metadata.Some? {
        metadata := u.metadata.value;
      }
      if u.error.Some? {
        error := u.error;
      }
    }
  }

  /** The router node: record the route; nothing else changes. Its `except` branch cannot be taken,
      since the message is always a string. */
  method RouterNode(cfg: RouterConfig, state: FinancialState)
    modifies state
    ensures state.nextAgent == Some(Route(cfg, state.message, state.agentType))
    ensures state.Snapshot() == old(state.Snapshot())
  {
    var outcome := KeywordRoute(cfg, state.message);
    if Truthy(state.agentType) {
      outcome := state.agentType.value;
    }
    state.nextAgent := Some(outcome);
  }

  const QaErrorReply := "I encountered an error while processing your financial question. Please try again."
  const NoContextReply := "I couldn't find relevant financial information in the uploaded documents to answer your question."
  const SummaryErrorReply := "I encountered an error while generating the summary. Please try again."
  const NoSummaryContentReply := "No document content found for summarization. Please upload a document first."
  const McqErrorReply := "I encountered an error while generating MCQ questions. Please try again."
  const NoMcqContentReply := "No document content found for MCQ generation. Please upload a document first."

  /** An agent's `except` path: set `error` and the fixed reply, and metadata naming the agent. */
  function AgentFailure(reply: string, agent: string, e: string): Update {
    Update(reply, None, Some(map["agent_type" := Str(agent), "error" := Str(e)]), Some(e))
  }

  /** Metadata built as `{"agent_type": agent, key: value}` reports `agent` when `key` is another key. */
  lemma AgentTypeKept(agent: string, key: string, value: Value)
    requires key != "agent_type"
    ensures var m := map["agent_type" := Str(agent), key := value];
      "agent_type" in m && m["agent_type"] == Str(agent)
  {
  }

  /** `Source {i+1} (Document: {filename}):\n{content}` blocks joined by blank lines. */
  function SourceBlock(i: nat, c: Chunk): string {
    "Source " + NatToString(i + 1) + " (Document: " + ChunkField(c, "filename", "Unknown") + "):\n" + c.content
  }

  function ContextText(chunks: seq<Chunk>): string {
    Join(seq(|chunks|, i requires 0 <= i < |chunks| => SourceBlock(i, chunks[i])), "\n\n")
  }

  function Contents(chunks: seq<Chunk>): (r: seq<string>)
    ensures |r| == |chunks| && forall k :: 0 <= k < |r| ==> r[k] == chunks[k].content
  {
    seq(|chunks|, k requires 0 <= k < |chunks| => chunks[k].content)
  }

  /** What `_rag_agent_node` assigns: search all documents, answer with the model, one source per chunk. */
  function QaReply(svc: Services, message: string, documentId: Option<string>, history: Option<seq<HistoryItem>>): Update {
    match svc.search(message, TopK, None)
    case Failure(e) => AgentFailure(QaErrorReply, "q&a", e)
    case Success(chunks) =>
      if chunks == [] then
        Update(NoContextReply, Some([]), Some(map["context_chunks_found" := Int(0), "agent_type" := Str("q&a")]), None)
      else
        match ConversationContext(Converted(history.GetOr([])), 5, QaHistoryHeading)
        case Failure(e) => AgentFailure(QaErrorReply, "q&a", e)
        case Success(conv) =>
          match svc.llm(QaPrompt(ContextText(chunks) + conv, message, QueryComplexity(message)))
          case Failure(e) => AgentFailure(QaErrorReply, "q&a", e)
          case Success(answer) =>
            match Sources(chunks)
            case Failure(e) => AgentFailure(QaErrorReply, "q&a", e)
            case Success(sources) =>
              Update(Strip(answer), Some(sources), Some(map[
                "context_chunks_found" := Int(|chunks|),
                "document_id" := OptStr(documentId),
                "agent_type" := Str("q&a"),
                "is_analytics_query" := Bool(IsAnalyticsQuery(message)),
                "query_complexity" := Str(QueryComplexity(message))]), None)
  }

  method RagAgentNode(state: FinancialState, svc: Services)
    modifies state
    ensures state.Snapshot() == Apply(old(state.Snapshot()), QaReply(svc, state.message, state.documentId, state.history))
    ensures state.nextAgent == old(state.nextAgent)
  {
    var query := state.message;
    var found := svc.search(query, TopK, None);
    if found.Failure? {
      state.Set(AgentFailure(QaErrorReply, "q&a", found.error));
      return;
    }
    var chunks := found.value;
    if chunks == [] {
      state.Set(Update(NoContextReply, Some([]), Some(map["context_chunks_found" := Int(0), "agent_type" := Str("q&a")]), None));
      return;
    }
    var converted := ConvertHistory(state.history);
    var conv := ConversationContext(converted, 5, QaHistoryHeading);
    if conv.Failure? {
      state.Set(AgentFailure(QaErrorReply, "q&a", conv.error));
      return;
    }
    var answer := svc.llm(QaPrompt(ContextText(chunks) + conv.value, query, QueryComplexity(query)));
    if answer.Failure? {
      state.Set(AgentFailure(QaErrorReply, "q&a", answer.error));
      return;
    }
    var sources := BuildSources(chunks);
    if sources.Failure? {
      state.Set(AgentFailure(QaErrorReply, "q&a", sources.error));
      return;
    }
    state.Set(Update(Strip(answer.value), Some(sources.value), Some(map[
      "context_chunks_found" := Int(|chunks|),
      "document_id" := OptStr(state.documentId),
      "agent_type" := Str("q&a"),
      "is_analytics_query" := Bool(IsAnalyticsQuery(query)),
      "query_complexity" := Str(QueryComplexity(query))]), None));
  }

  /** With nothing retrieved the RAG agent answers with the fixed reply, no sources and a zero count,
      and the language model is not consulted: any other model gives the same update. */
  lemma NoChunksShortCircuit(svc: Services, otherLlm: Prompt -> Result<string>, message: string,
                             documentId: Option<string>, history: Option<seq<HistoryItem>>)
    requires svc.search(message, TopK, None) == Success([])
    ensures var u := QaReply(svc, message, documentId, history);
      u == QaReply(svc.(llm := otherLlm), message, documentId, history) &&
      u.response == NoContextReply && u.sources == Some([]) && u.error == None &&
      u.metadata == Some(map["context_chunks_found" := Int(0), "agent_type" := Str("q&a")])
  {
  }

  /** A successful RAG answer is the model's stripped answer with one source per retrieved chunk and
      the chunk count in the metadata. */
  lemma QaAnswerShape(svc: Services, message: string, documentId: Option<string>, history: Option<seq<HistoryItem>>)
    requires svc.search(message, TopK, None).Success? && svc.search(message, TopK, None).value != []
    ensures var chunks, u := svc.search(message, TopK, None).value, QaReply(svc, message, documentId, history);
      u.error == None ==>
        u.sources.Some? && |u.sources.value| == |chunks| && u.metadata.Some? &&
        u.metadata.value["context_chunks_found"] == Int(|chunks|) && u.metadata.value["agent_type"] == Str("q&a")
  {
    var chunks := svc.search(message, TopK, None).value;
    if Sources(chunks).Success? {
      SourcesOnePerChunk(chunks);
    }
  }

  /** What `_summarization_agent_node` assigns: summarise all stored chunks' text, cut to 4000 characters. */
  function SummaryReply(svc: Services, history: Option<seq<HistoryItem>>): Update {
    match svc.allChunks
    case Failure(e) => AgentFailure(SummaryErrorReply, "summarization", e)
    case Success(chunks) =>
      if chunks == [] then
        Update(NoSummaryContentReply, Some([]), Some(map["agent_type" := Str("summarization")]), None)
      else
        var fullText := Join(Contents(chunks), "\n\n");
        match ConversationContext(Converted(history.GetOr([])), 3, AgentHistoryHeading)
        case Failure(e) => AgentFailure(SummaryErrorReply, "summarization", e)
        case Success(conv) =>
          match svc.llm(SummaryPrompt(Prefix(fullText, DocumentLimit), conv))
          case Failure(e) => AgentFailure(SummaryErrorReply, "summarization", e)
          case Success(answer) =>
            Update(Strip(answer), Some([DocumentSource("summary", "multi-document")]),
              Some(map["agent_type" := Str("summarization"), "word_count" := Int(WordCount(fullText))]), None)
  }

  method SummarizationAgentNode(state: FinancialState, svc: Services)
    modifies state
    ensures state.Snapshot() == Apply(old(state.Snapshot()), SummaryReply(svc, state.history))
    ensures state.nextAgent == old(state.nextAgent)
  {
    var found := svc.allChunks;
    if found.Failure? {
      state.Set(AgentFailure(SummaryErrorReply, "summarization", found.error));
      return;
    }
    var chunks := found.value;
    if chunks == [] {
      state.Set(Update(NoSummaryContentReply, Some([]), Some(map["agent_type" := Str("summarization")]), None));
      return;
    }
    var fullText := Join(Contents(chunks), "\n\n");
    var converted := ConvertHistory(state.history);
    var conv := ConversationContext(converted, 3, AgentHistoryHeading);
    if conv.Failure? {
      state.Set(AgentFailure(SummaryErrorReply, "summarization", conv.error));
      return;
    }
    var answer := svc.llm(SummaryPrompt(Prefix(fullText, DocumentLimit), conv.value));
    if answer.Failure? {
      state.Set(AgentFailure(SummaryErrorReply, "summarization", answer.error));
      return;
    }
    state.Set(Update(Strip(answer.value), Some([DocumentSource("summary", "multi-document")]),
      Some(map["agent_type" := Str("summarization"), "word_count" := Int(WordCount(fullText))]), None));
  }

  /** The summary agent sees at most 4000 characters of the documents, and a successful summary cites
      exactly one source, the `"multi-document"` reference. */
  lemma SummaryShape(svc: Services, history: Option<seq<HistoryItem>>)
    requires svc.allChunks.Success? && svc.allChunks.value != []
    ensures var u := SummaryReply(svc, history);
      u.error == None ==>
        u.sources == Some([DocumentSource("summary", "multi-document")]) &&
        exists p: Prompt :: p.SummaryPrompt? && |p.documentContent| <= DocumentLimit && svc.llm(p).Success? && u.response == Strip(svc.llm(p).value)
  {
    var u := SummaryReply(svc, history);
    if u.error == None {
      var fullText := Join(Contents(svc.allChunks.value), "\n\n");
      var conv := ConversationContext(Converted(history.GetOr([])), 3, AgentHistoryHeading).value;
      var p := SummaryPrompt(Prefix(fullText, DocumentLimit), conv);
      assert svc.llm(p).Success? && u.response == Strip(svc.llm(p).value);
    }
  }

  /** The quiz template's variables, and the keys `_mcq_agent_node` passes to `invoke`. */
  const McqTemplateVariables: set<string> := {"num_questions", "document_content", "conversation_context"}
  const McqInvokeKeysAsWritten: set<string> := {"document_content", "num_questions"}
  const McqInvokeKeys: set<string> := McqInvokeKeysAsWritten + {"conversation_context"}

  /** The error LangChain raises when a template variable is not supplied. */
  const MissingVariablesError := "Input to ChatPromptTemplate is missing variables"

  /** What `_mcq_agent_node` assigns when `invoke` receives the keys `provided`. */
  function McqReply(svc: Services, history: Option<seq<HistoryItem>>, provided: set<string>): Update {
    match svc.allChunks
    case Failure(e) => AgentFailure(McqErrorReply, "mcq", e)
    case Success(chunks) =>
      if chunks == [] then
        Update(NoMcqContentReply, Some([]), Some(map["agent_type" := Str("mcq")]), None)
      else
        var fullText := Join(Contents(chunks), "\n\n");
        match ConversationContext(Converted(history.GetOr([])), 3, AgentHistoryHeading)
        case Failure(e) => AgentFailure(McqErrorReply, "mcq", e)
        case Success(conv) =>
          if !(McqTemplateVariables <= provided) then AgentFailure(McqErrorReply, "mcq", MissingVariablesError)
          else
            match svc.llm(McqPrompt(Prefix(fullText, DocumentLimit), NumQuestions, conv))
            case Failure(e) => AgentFailure(McqErrorReply, "mcq", e)
            case Success(answer) =>
              Update(Strip(answer), Some([DocumentSource("mcq", "multi-document")]),
                Some(map["agent_type" := Str("mcq"), "num_questions" := Int(NumQuestions)]), None)
  }

  /** As written, the quiz template names `{conversation_context}` but `invoke` does not supply it:
      whenever there are chunks and the history converts, the quiz agent fails before the model is
      called, whatever the model would answer. */
  lemma McqFailsAsWritten(svc: Services, history: Option<seq<HistoryItem>>)
    requires svc.allChunks.Success? && svc.allChunks.value != []
    requires ConversationContext(Converted(history.GetOr([])), 3, AgentHistoryHeading).Success?
    ensures McqReply(svc, history, McqInvokeKeysAsWritten) ==
      Update(McqErrorReply, None, Some(map["agent_type" := Str("mcq"), "error" := Str(MissingVariablesError)]), Some(MissingVariablesError))
  {
    assert "conversation_context" in McqTemplateVariables && "conversation_context" !in McqInvokeKeysAsWritten;
  }

  /** Supplying the conversation block, the quiz agent answers from the model with the document
      text cut to 4000 characters and a single `"multi-document"` source. */
  lemma McqCorrectedAnswers(svc: Services, history: Option<seq<HistoryItem>>)
    requires svc.allChunks.Success? && svc.allChunks.value != []
    requires ConversationContext(Converted(history.GetOr([])), 3, AgentHistoryHeading).Success?
    ensures var fullText := Join(Contents(svc.allChunks.value), "\n\n");
      var conv := ConversationContext(Converted(history.GetOr([])), 3, AgentHistoryHeading).value;
      var p := McqPrompt(Prefix(fullText, DocumentLimit), NumQuestions, conv);
      |p.documentContent| <= DocumentLimit &&
      (svc.llm(p).Success? ==>
        McqReply(svc, history, McqInvokeKeys) == Update(Strip(svc.llm(p).value), Some([DocumentSource("mcq", "multi-document")]),
          Some(map["agent_type" := Str("mcq"), "num_questions" := Int(NumQuestions)]), None))
  {
    assert McqTemplateVariables <= McqInvokeKeys;
  }

  method McqAgentNode(state: FinancialState, svc: Services)
    modifies state
    ensures state.Snapshot() == Apply(old(state.Snapshot()), McqReply(svc, state.history, McqInvokeKeys))
    ensures state.nextAgent == old(state.nextAgent)
  {
    var found := svc.allChunks;
    if found.Failure? {
      state.Set(AgentFailure(McqErrorReply, "mcq", found.error));
      return;
    }
    var chunks := found.value;
    if chunks == [] {
      state.Set(Update(NoMcqContentReply, Some([]), Some(map["agent_type" := Str("mcq")]), None));
      return;
    }
    var fullText := Join(Contents(chunks), "\n\n");
    var converted := ConvertHistory(state.history);
    var conv := ConversationContext(converted, 3, AgentHistoryHeading);
    if conv.Failure? {
      state.Set(AgentFailure(McqErrorReply, "mcq", conv.error));
      return;
    }
    assert McqTemplateVariables <= McqInvokeKeys;
    var answer := svc.llm(McqPrompt(Prefix(fullText, DocumentLimit), NumQuestions, conv.value));
    if answer.Failure? {
      state.Set(AgentFailure(McqErrorReply, "mcq", answer.error));
      return;
    }
    state.Set(Update(Strip(answer.value), Some([DocumentSource("mcq", "multi-document")]),
      Some(map["agent_type" := Str("mcq"), "num_questions" := Int(NumQuestions)]), None));
  }

  /** `f"{error_msg}"` of `state.get("error", ...)`: the key is always present, so an unset error
      prints as `None`. */
  function ErrorText(error: Option<string>): string {
    if error.Some? then error.value else "None"
  }

  /** What `_error_handler_node` assigns (identical in both versions). */
  function ErrorHandlerReply(error: Option<string>): (u: Update)
    ensures u.sources == Some([]) && u.error == None
    ensures u.metadata == Some(map["error" := OptStr(error), "agent_type" := Str("error")])
    ensures error.Some? ==> OccursAt(u.response, error.value, |"I encountered an error while processing your request: "|)
  {
    Update("I encountered an error while processing your request: " + ErrorText(error) + ". Please try again.",
      Some([]), Some(map["error" := OptStr(error), "agent_type" := Str("error")]), None)
  }

  method ErrorHandlerNode(state: FinancialState)
    modifies state
    ensures state.Snapshot() == Apply(old(state.Snapshot()), ErrorHandlerReply(old(state.error)))
    ensures state.nextAgent == old(state.nextAgent)
  {
    state.Set(ErrorHandlerReply(state.error));
  }

  /** A request as the API layers build it; `history` is `conversation_history`. */
  datatype Request = Request(message: string, documentId: Option<string>, agentType: Option<string>, history: Option<seq<HistoryItem>>)

  /** `FinancialResponse`. */
  datatype Response = Response(response: string, agentType: string, sources: seq<Source>, metadata: Metadata)

  /** `process_request`'s `except` path. */
  function FailureResponse(e: string): Response {
    Response("I encountered an error while processing your request: " + e + ". Please try again.", "error", [], map["error" := Str(e)])
  }

  /** `final_state["metadata"].get("agent_type", default)`. */
  function ReportedAgentType(m: Metadata, default: string): string {
    if "agent_type" in m && m["agent_type"].Str? then m["agent_type"].s else default
  }

  /** The update of the node a route reaches; the router never sets `error`, so the error handler
      reports `None`. */
  function NodeReply(svc: Services, node: Node, r: Request): Update {
    match node
    case RagAgent => QaReply(svc, r.message, r.documentId, r.history)
    case SummarizationAgent => SummaryReply(svc, r.history)
    case McqAgent => McqReply(svc, r.history, McqInvokeKeys)
    case _ => ErrorHandlerReply(None)
  }

  /** The response to a request: route, run the one node the route reaches, report. A route outside the
      graph's mapping makes LangGraph raise the `KeyError` of the label. */
  function Respond(svc: Services, r: Request): Response {
    var outcome := RouteDecision(Backend, None, Some(Route(Backend, r.message, r.agentType)));
    match Branch(Backend, outcome)
    case None => FailureResponse("'" + outcome + "'")
    case Some(node) =>
      var out := Apply(Outputs("", [], map[], None), NodeReply(svc, node, r));
      Response(out.response, ReportedAgentType(out.metadata, "q&a"), out.sources, out.metadata)
  }

  /** `process_request` with the request carrying its conversation history. */
  method ProcessRequest(svc: Services, r: Request) returns (resp: Response)
    ensures resp == Respond(svc, r)
  {
    var state := new FinancialState(r.message, r.documentId, r.agentType, r.history);
    RouterNode(Backend, state);
    var outcome := RouteDecision(Backend, state.error, state.nextAgent);
    var target := Branch(Backend, outcome);
    if target.None? {
      return FailureResponse("'" + outcome + "'");
    }
    var node := target.value;
    if node == RagAgent {
      RagAgentNode(state, svc);
    } else if node == SummarizationAgent {
      SummarizationAgentNode(state, svc);
    } else if node == McqAgent {
      McqAgentNode(state, svc);
    } else {
      ErrorHandlerNode(state);
    }
    resp := Response(state.response, ReportedAgentType(state.metadata, "q&a"), state.sources, state.metadata);
  }

  /** The attributes `FinancialRequest` declares, and the ones `process_request` reads. */
  const DeclaredRequestFields: set<string> := {"message", "document_id", "agent_type"}
  const ReadRequestFields: seq<string> := ["message", "document_id", "agent_type", "conversation_history"]

  /** The message of the `AttributeError` for a missing request attribute. */
  function NoAttribute(name: string): string {
    "'FinancialRequest' object has no attribute '" + name + "'"
  }

  /** Reading the request's attributes in order: the first undeclared one raises `AttributeError`. */
  function ReadFields(declared: set<string>, names: seq<string>): Result<()> {
    if names == [] then Success(())
    else if names[0] !in declared then Failure(NoAttribute(names[0]))
    else ReadFields(declared, names[1..])
  }

  /** `process_request` against the request class with the fields `declared`. */
  function RespondWith(declared: set<string>, svc: Services, r: Request): Response {
    match ReadFields(declared, ReadRequestFields)
    case Failure(e) => FailureResponse(e)
    case Success(_) => Respond(svc, r)
  }

  /** Reading the four attributes from the request as declared stops at the fourth. */
  lemma ReadFieldsAsWritten()
    ensures ReadFields(DeclaredRequestFields, ReadRequestFields) ==
      Failure(NoAttribute("conversation_history"))
  {
    var d, names := DeclaredRequestFields, ReadRequestFields;
    assert |"conversation_history"| == 20;
    assert "conversation_history" !in d;
    assert names[3..] == ["conversation_history"] && names[3..][1..] == [];
    assert ReadFields(d, names[3..]) == Failure(NoAttribute("conversation_history"));
    assert names[2..][0] == "agent_type" && names[2..][1..] == names[3..];
    assert ReadFields(d, names[2..]) == ReadFields(d, names[3..]);
    assert names[1..][0] == "document_id" && names[1..][1..] == names[2..];
    assert ReadFields(d, names[1..]) == ReadFields(d, names[2..]);
    assert names[0] == "message";
  }

  /** As written, `FinancialRequest` has no `conversation_history`, so building the initial state
      raises and every request is answered with the error response. */
  lemma EveryRequestFailsAsWritten(svc: Services, r: Request)
    ensures RespondWith(DeclaredRequestFields, svc, r) ==
      FailureResponse(NoAttribute("conversation_history"))
    ensures RespondWith(DeclaredRequestFields, svc, r).agentType == "error"
  {
    ReadFieldsAsWritten();
  }

  /** Every path of each agent records the agent's own name as `agent_type`. */
  lemma QaReportsItself(svc: Services, message: string, documentId: Option<string>, history: Option<seq<HistoryItem>>)
    ensures var u := QaReply(svc, message, documentId, history);
      u.metadata.Some? && "agent_type" in u.metadata.value && u.metadata.value["agent_type"] == Str("q&a")
  {
    match svc.search(message, TopK, None)
    case Failure(e) =>
    case Success(chunks) =>
      if chunks != [] {
        match ConversationContext(Converted(history.GetOr([])), 5, QaHistoryHeading)
        case Failure(e) =>
        case Success(conv) =>
          match svc.llm(QaPrompt(ContextText(chunks) + conv, message, QueryComplexity(message)))
          case Failure(e) =>
          case Success(answer) =>
      }
  }

  lemma SummaryReportsItself(svc: Services, history: Option<seq<HistoryItem>>)
    ensures var u := SummaryReply(svc, history);
      u.metadata.Some? && "agent_type" in u.metadata.value && u.metadata.value["agent_type"] == Str("summarization")
  {
  }

  lemma McqReportsItself(svc: Services, history: Option<seq<HistoryItem>>, provided: set<string>)
    ensures var u := McqReply(svc, history, provided);
      u.metadata.Some? && "agent_type" in u.metadata.value && u.metadata.value["agent_type"] == Str("mcq")
  {
    assert "error"[0] != "agent_type"[0] && "num_questions"[0] != "agent_type"[0];
    AgentTypeKept("mcq", "error", Str(MissingVariablesError));
    match svc.allChunks
    case Failure(e) => AgentTypeKept("mcq", "error", Str(e));
    case Success(chunks) =>
      if chunks != [] {
        var fullText := Join(Contents(chunks), "\n\n");
        match ConversationContext(Converted(history.GetOr([])), 3, AgentHistoryHeading)
        case Failure(e) => AgentTypeKept("mcq", "error", Str(e));
        case Success(conv) =>
          if McqTemplateVariables <= provided {
            match svc.llm(McqPrompt(Prefix(fullText, DocumentLimit), NumQuestions, conv))
            case Failure(e) => AgentTypeKept("mcq", "error", Str(e));
            case Success(answer) => AgentTypeKept("mcq", "num_questions", Int(NumQuestions));
          }
      }
  }

  /** With the field declared, requests reach the graph, and the reported agent is the route taken
      whenever the route leads to an agent (on the error paths of the agents too). The nodes of this
      model read the history from the state; under LangGraph that also needs a `conversation_history`
      key in the `FinancialState` schema, which keeps only the keys it declares. */
  lemma CorrectedRequestReachesAgents(svc: Services, r: Request)
    ensures RespondWith(DeclaredRequestFields + {"conversation_history"}, svc, r) == Respond(svc, r)
    ensures var outcome := Route(Backend, r.message, r.agentType);
      outcome in {"q&a", "summarization", "mcq"} ==> Respond(svc, r).agentType == outcome
  {
    var fields, names := DeclaredRequestFields + {"conversation_history"}, ReadRequestFields;
    assert names[3..][1..] == [] && names[2..][1..] == names[3..] && names[1..][1..] == names[2..];
    assert ReadFields(fields, names[3..]) == Success(());
    assert ReadFields(fields, names[1..]) == ReadFields(fields, names[2..]) == Success(());
    QaReportsItself(svc, r.message, r.documentId, r.history);
    SummaryReportsItself(svc, r.history);
    McqReportsItself(svc, r.history, McqInvokeKeys);
  }

  /** The keyword route never leads outside the graph, so without an explicit agent type a request
      is answered by the agent its message selects. */
  lemma KeywordRequestReachesAgent(svc: Services, r: Request)
    requires !Truthy(r.agentType)
    ensures Respond(svc, r).agentType == KeywordRoute(Backend, r.message)
  {
    RoutePrecedence(Backend, r.message);
    CorrectedRequestReachesAgents(svc, r);
  }

  /** An explicit agent type outside the graph's labels makes the graph raise: the error response,
      with no sources. */
  lemma UnknownAgentTypeFails(svc: Services, r: Request)
    requires Truthy(r.agentType) && r.agentType.value !in {"q&a", "summarization", "mcq", "error"}
    ensures Respond(svc, r) == FailureResponse("'" + r.agentType.value + "'")
  {
  }

  /** An explicit agent type `"error"` reaches the error handler with no error set: the reply says
      `None`. */
  lemma ExplicitErrorAgentType(svc: Services, r: Request)
    requires r.agentType == Some("error")
    ensures Respond(svc, r).response == "I encountered an error while processing your request: None. Please try again."
    ensures Respond(svc, r).agentType == "error" && Respond(svc, r).sources == []
  {
  }
}
