# Financial chatbot core, modelled and verified in Dafny

This project models the deterministic core of a financial-document chatbot: a FastAPI backend with
a LangGraph workflow and a Streamlit front end. It covers six parts of the system.

- **Ingestion.** Files are classified by extension. PDF text is extracted and cut into overlapping
  fixed-size windows. A CSV table is split into numeric, categorical and date columns and laid out
  as a fixed sequence of chunks: overview, column analyses, statistics, row batches, categories,
  time series. The chunks are labelled `[CSV_CHUNK_n]`. The older pipeline's simpler CSV layout is
  modelled too.
- **The query workflow.** A keyword router, in both its current and its older version, picks one of
  three agents (question answering, summary, quiz) or the error handler. Every node ends the run.
  The model covers each agent's short-circuits, source lists and history windows, and
  `process_request`.
- **Context assembly.** The chat endpoints turn search hits into a context string: the top hits,
  each cut to 500 characters, under headers. The two-section variant keeps permanent knowledge and
  the user's session documents apart.
- **The document registries** of the chatbot API classes: upload, look-up, listing and deletion on
  the in-memory `document_store` dictionary.
- **Service configuration.** Presets, applying a preset to the settings, per-service validation
  rules and the cost estimate's total.
- **The front end's quiz parser.** A line-oriented state machine that groups questions, options
  and answers, and renders them as HTML.

The language model, the vector store, pandas, PyPDF2, the file system and the hybrid knowledge
manager are outside the model. They appear as parameters: function values or `Result`s that the
caller supplies. Code that updates state in place keeps that form:
- the workflow's state record, the chatbot registries, the upload directory and the settings object
  are classes whose methods declare what they modify;
- every loop of the source (chunking, row batching, labelling, the context builders, the
  validators, the quiz parser) is a method with loop invariants, proved equal to a specification
  function.

Modules, one file each:
- `results.dfy` (`Option`, `Result`), `text.dfy` (Python string operations) and
  `collections.dfy` (filters and arithmetic helpers);
- `filetypes.dfy`, `chunking.dfy`, `tabular.dfy`, `structuredcsv.dfy`, `legacycsv.dfy` and
  `ingestion.dfy`;
- `routing.dfy`, `workflow.dfy` and `legacyworkflow.dfy`;
- `context.dfy`, `hybridchatbot.dfy` and `documentstores.dfy`;
- `serviceconfig.dfy` and `mcqparser.dfy`.

Three facts about the code that a reader might not expect:
- the date columns are a subset of the categorical columns, not a separate part of a partition
  (`Tabular.DatesAreCategorical`);
- boolean columns appear in none of the three column lists (`Tabular.BoolColumnUnlisted`);
- consecutive windows overlap, so a text's characters near a window boundary appear in two chunks
  (`Chunking.ConsecutiveWindowsOverlap`).

## Model

| member | source | states |
|---|---|---|
| FileTypes.GetFileType | backend/app/ingestion/pipeline.py:313-321 | `.pdf` gives the PDF processor and `.csv` the CSV one, both compared after lowercasing the final suffix. Any other suffix, the empty one included, fails with `Unsupported file type: ` followed by the lowered suffix. The older pipeline's copy (ingestion/pipeline.py:177-185) is identical. |
| FileTypes.PathName | backend/app/ingestion/pipeline.py:315 | the name `Path` takes the suffix from contains no `/` |
| FileTypes.LastIndexOf | backend/app/ingestion/pipeline.py:315 | the index found holds the character and none follows it; no index means the character does not occur |
| FileTypes.SuffixShape | backend/app/ingestion/pipeline.py:315 | a non-empty suffix is a proper tail of the name, starts with its only dot, and follows a non-empty stem |
| FileTypes.SuffixEmpty | backend/app/ingestion/pipeline.py:315 | the suffix is empty exactly when the name has no dot after its first character, or ends in a dot |
| FileTypes.FileTypeDependsOnlyOnLoweredSuffix | backend/app/ingestion/pipeline.py:315-321 | two file names with the same lowered suffix are classified alike |
| FileTypes.AcceptedHasStem | backend/app/ingestion/pipeline.py:315-319 | an accepted name has a four-character suffix after a non-empty stem |
| FileTypes.DotfileRejected | backend/app/ingestion/pipeline.py:315-321 | a file named just `.pdf` has no suffix and is rejected |
| FileTypes.UpperCaseAccepted | backend/app/ingestion/pipeline.py:315-317 | `q3/Report.PDF` is a PDF: the case of the suffix and the directory do not matter |
| Chunking.ZeroOverlapBecomesDefault | backend/app/ingestion/pipeline.py:46-47 | because of `or`, the effective overlap is never 0: an explicit 0 becomes the default 200 |
| Chunking.ChunkText | backend/app/ingestion/pipeline.py:44-61 | `ceil(len(text)/step)` chunks, chunk `k` being the stripped slice `text[k*step : k*step+size]`; empty text gives no chunks. The older copy (ingestion/pipeline.py:44-61) is identical. |
| Chunking.AllChunks | backend/app/ingestion/pipeline.py:52-59 | chunks cut one per stride until an offset reaches the end are exactly the stripped windows at offsets 0, step, 2·step, … below the length, `ceil(len(text)/step)` of them |
| Collections.CeilDivIsQuotient | backend/app/ingestion/pipeline.py:52-59 | the number of strides starting inside a text of length `n` is `(n + step - 1) // step` |
| Chunking.ConsecutiveWindowsOverlap | backend/app/ingestion/pipeline.py:52-59 | window offsets strictly increase, and a full window `k` shares its last `size-step` characters with the start of window `k+1` |
| Chunking.LastWindowReachesEnd | backend/app/ingestion/pipeline.py:52-59 | the last window reaches the end of the text |
| Chunking.WindowsCoverText | backend/app/ingestion/pipeline.py:52-59 | every character of the text lies in some window |
| Chunking.ChunkIsSlice | backend/app/ingestion/pipeline.py:54-55 | every chunk is a contiguous piece of the text: the slice of the window between its leading and trailing whitespace |
| Chunking.ExtractText | backend/app/ingestion/pipeline.py:31-42 | the text is the pages joined with newlines, then stripped |
| Tabular.FirstValue | backend/app/ingestion/pipeline.py:104-111 | the first non-missing value, if there is one; none otherwise |
| Tabular.Lookup | backend/app/ingestion/pipeline.py:104-111 | a found column belongs to the table and has the name looked up; not found means no column has that name |
| Tabular.AnalyzeData | backend/app/ingestion/pipeline.py:94-115 | the row count, the column names, and the numeric, categorical and date column lists, each in column order |
| Tabular.NumericCategoricalDisjoint | backend/app/ingestion/pipeline.py:100-101 | no column is both numeric and categorical |
| Tabular.DatesAreCategorical | backend/app/ingestion/pipeline.py:104-111 | every date column is also a categorical column |
| Tabular.DateColumnIff | backend/app/ingestion/pipeline.py:104-111 | an object column is a date column exactly when it has a non-missing value and the first one parses as a date |
| Tabular.BoolColumnUnlisted | backend/app/ingestion/pipeline.py:100-101 | a boolean column is in none of the three lists |
| StructuredCsv.ColumnAnalysisChunks | backend/app/ingestion/pipeline.py:164-175 | one analysis chunk per column, in column order, flagged numeric as the analysis says |
| StructuredCsv.ColumnFlagIsDtype | backend/app/ingestion/pipeline.py:164-175 | with the analysis of the same table, a column chunk is flagged numeric exactly when the column's dtype is a number type |
| StructuredCsv.StatisticalChunks | backend/app/ingestion/pipeline.py:198-215 | a correlation chunk exactly when there are at least two numeric columns, a summary chunk exactly when there is at least one; the summary comes last |
| StructuredCsv.RowsPerChunk | backend/app/ingestion/pipeline.py:219 | `max(1, chunk_size // (ncols*20))` is at least 1 |
| StructuredCsv.RowBasedChunks | backend/app/ingestion/pipeline.py:217-230 | the loop yields the batches `[s, min(s+rpc, n))` for `s` in `range(0, n, rpc)` |
| StructuredCsv.RowBatchesCount | backend/app/ingestion/pipeline.py:221 | the batch count is the least count that reaches `n`; zero rows give no batches |
| StructuredCsv.RowBatchesAt | backend/app/ingestion/pipeline.py:221-222 | batch `k` covers rows `[start+k*rpc, min(start+(k+1)*rpc, n))` |
| StructuredCsv.RowBatchFromZero | backend/app/ingestion/pipeline.py:221-228 | batch `k` from row 0 spelled out: it covers rows `[k*rpc, min((k+1)*rpc, n))` |
| StructuredCsv.RowBatchesPartition | backend/app/ingestion/pipeline.py:217-230 | the batches partition rows `0..n-1` in order: `ceil(n/rpc)` non-empty batches of at most `rpc` rows, each starting where the previous one ended |
| StructuredCsv.CategoryChunks | backend/app/ingestion/pipeline.py:232-242 | one chunk per categorical column with at most 50 distinct values, in order |
| StructuredCsv.TimeSeriesChunks | backend/app/ingestion/pipeline.py:244-269 | one chunk per date column whose conversion succeeds; a failing column is skipped |
| StructuredCsv.CreateStructuredChunks | backend/app/ingestion/pipeline.py:117-146 | the chunks are the fixed layout: overview, column analyses, statistics, row batches, categories, time series |
| StructuredCsv.LayoutCount | backend/app/ingestion/pipeline.py:117-146 | the chunk count is the sum of the per-strategy counts |
| StructuredCsv.LayoutOrder | backend/app/ingestion/pipeline.py:117-146 | exactly one overview chunk comes first, then one analysis chunk per column in order, and neither kind appears later |
| StructuredCsv.SampleCsvChunkCount | backend/app/ingestion/pipeline.py:117-146 | the twelve-row `date,revenue,costs,profit` sample file gives 10 chunks: 1 overview, 4 column, 2 statistics, 1 row-batch, 1 category and 1 time-series chunk |
| StructuredCsv.LabelChunks | backend/app/ingestion/pipeline.py:280-283 | chunk `i` becomes `[CSV_CHUNK_{i+1}]` followed by a newline and the chunk |
| StructuredCsv.LabelRoundTrip | backend/app/ingestion/pipeline.py:282 | the ordinal and the original chunk can be read back from a labelled chunk |
| StructuredCsv.LabelsIdentifyPositions | backend/app/ingestion/pipeline.py:280-283 | labelled chunks at different positions differ |
| StructuredCsv.Render | backend/app/ingestion/pipeline.py:117-146 | one text per facet, in order |
| StructuredCsv.Process | backend/app/ingestion/pipeline.py:271-301 | the column lists are the table's; the chunks are the labelled rendered layout; `total_chunks` is their count and `total_words` the sum of their word counts; the strategy is `multi_strategy_csv` |
| LegacyCsv.ColumnTexts | ingestion/pipeline.py:132-140 | one column chunk per column, in order |
| LegacyCsv.RowTexts | ingestion/pipeline.py:143-148 | one row chunk per sample row, in order, each cell shown as the row Series of `iterrows` shows it: integer cells as floats when every column is numeric and one holds floats, otherwise each cell as itself |
| LegacyCsv.IntFloatRowUpcast | ingestion/pipeline.py:144-146 | for the frame `a,b` / `1,1.5` the row items are `a=1.0, b=1.5, `: the integer is upcast |
| LegacyCsv.ObjectRowKeepsInts | ingestion/pipeline.py:144-146 | with an object column beside an integer column, the integer keeps its own text (`a=1, c=x, `) |
| LegacyCsv.AppendRowItems | ingestion/pipeline.py:145-146 | the inner loop appends exactly the `col=value, ` items of the row, in column order |
| LegacyCsv.BuildRowText | ingestion/pipeline.py:144-148 | the loop builds `Row {i+1}: ` and then `col=value, ` items with the values as `iterrows` shows them, right-stripped of commas and spaces |
| LegacyCsv.Process | ingestion/pipeline.py:115-165 | the column lists are the table's; the chunks are the summary, the column chunks and the sample-row chunks; `total_chunks` and `total_words` are computed from them |
| LegacyCsv.AppendColumnTexts | ingestion/pipeline.py:131-140 | the loop over the columns appends exactly one description per column, in column order |
| LegacyCsv.AppendRowTexts | ingestion/pipeline.py:142-147 | the loop over the first rows appends exactly one `Row i: col=value, …` text per sampled row, in row order |
| LegacyCsv.LayoutCount | ingestion/pipeline.py:122-148 | there are `1 + ncols + min(5, nrows)` chunks |
| LegacyCsv.ColumnNumericIff | ingestion/pipeline.py:132-140 | a column chunk reports mean and standard deviation exactly when the column is numeric; otherwise it reports the unique-value count |
| LegacyCsv.RowItemsHasEquals | ingestion/pipeline.py:145-146 | the item text has `=` right after the first column's name |
| LegacyCsv.RowTextKeepsHeader | ingestion/pipeline.py:147-148 | `rstrip(", ")` never reaches into the row header or the first `name=` |
| LegacyCsv.RowTextTrimmed | ingestion/pipeline.py:147-148 | a row chunk is a prefix of the raw text, never ends in a comma or a space, and only commas and spaces were removed |
| Ingestion.UploadDirectory.constructor | backend/app/ingestion/pipeline.py:307-311 | an empty upload directory at the given path |
| Ingestion.UploadDirectory.SaveFile | backend/app/ingestion/pipeline.py:323-333 | the file is stored as `{document_id}{suffix}` in the directory; no other file changes |
| Ingestion.ProcessPdf | backend/app/ingestion/pipeline.py:63-82 | exactly the five PDF metadata keys: the stripped page text, its character and word counts, and its chunks, which are the stripped 1000-character windows every 800 characters, `ceil(len/800)` of them |
| Ingestion.ProcessCsv | backend/app/ingestion/pipeline.py:285-294 | exactly the eight keys of the current CSV metadata; chunk `i` is the label `[CSV_CHUNK_{i+1}]` followed by the rendering of facet `i` of the structured layout of the table; `total_chunks` and `total_words` agree with the chunks; the strategy is `multi_strategy_csv` |
| Ingestion.ProcessLegacyCsv | ingestion/pipeline.py:150-158 | exactly the seven keys of the older CSV metadata; the chunks are the older layout of the table (summary, one text per column, one per sampled row), `1 + ncols + min(5, nrows)` of them, with their count and word total |
| Ingestion.DocumentFieldsUpdate | backend/app/ingestion/pipeline.py:348-354 | `update` adds the five document fields, sets status `processed` and keeps every other processor key |
| Ingestion.ProcessDocument | backend/app/ingestion/pipeline.py:335-362 | the file is saved first, so it stays saved when the type is unsupported or reading fails. Each failure is returned. On success the result has exactly the processor's keys plus the five document fields, holds what the processor computed for that file type (PDF chunks and counts, the current or the older CSV layout) and includes the document fields. The older version is ingestion/pipeline.py:199-226. |
| Routing.ClassifyFirstMatch | backend/app/workflow/financial_workflow.py:64-74 | the first rule whose keywords occur decides |
| Routing.ClassifyDefault | backend/app/workflow/financial_workflow.py:73-74 | with no keyword present the default is the answer |
| Routing.ClassifyJustified | backend/app/workflow/financial_workflow.py:64-74 | every answer is the default or the outcome of a matching rule with no earlier rule matching |
| Routing.RoutePrecedence | backend/app/workflow/financial_workflow.py:61-74 | on the lowered message: a summary keyword gives `summarization`; otherwise a quiz keyword gives `mcq`; otherwise the default |
| Routing.Route | backend/app/workflow/financial_workflow.py:76-79 | a truthy explicit agent type is taken verbatim; an empty or missing one leaves the keyword decision |
| Routing.LowerIdempotent | backend/app/workflow/financial_workflow.py:61 | lowering twice is lowering once |
| Routing.RouteIgnoresCase | backend/app/workflow/financial_workflow.py:61-74 | the keyword route of a message and of its lowered form agree |
| Routing.SummaryStableUnderExtension | backend/app/workflow/financial_workflow.py:64-67 | appending text to a summary request keeps it a summary request |
| Routing.LegacyRouteRefined | workflow/financial_workflow.py:66-75 | where the older router answers summary or quiz, the current one answers summary (or summary/quiz); where the current one defaults, the older one does too |
| Routing.LatestHasNoSummaryKeyword | backend/app/workflow/financial_workflow.py:64-67 | `latest` contains none of the summary keywords |
| Routing.LatestRoutesToQuiz | backend/app/workflow/financial_workflow.py:69-72 | because matching is by substring, `latest` contains `test` and routes to the quiz agent in both versions |
| Routing.RouteDecision | backend/app/workflow/financial_workflow.py:90-94 | a set error gives `error`; otherwise `next_agent`, or the version's default when unset |
| Routing.Branch | backend/app/workflow/financial_workflow.py:39-48 | a mapped outcome leads to one of the four agent or error nodes |
| Routing.RunShape | backend/app/workflow/financial_workflow.py:28-55 | a run from the router visits the router, then at most one agent node, then ends; the error handler is reached only for the outcome `error` |
| Routing.KeywordLabelsAreMapped | backend/app/workflow/financial_workflow.py:39-48 | every keyword outcome and `error` have an edge |
| Routing.ComplexityLevels | backend/app/workflow/financial_workflow.py:200-216 | the result is `simple` when a simple keyword occurs; otherwise `complex` when a complex keyword occurs; otherwise `moderate` |
| Routing.RevenueIsAnalytics | backend/app/workflow/financial_workflow.py:171-180 | a query that mentions revenue, in any case, is an analytics query, and stays one when extended |
| Workflow.TruncateSource | backend/app/workflow/financial_workflow.py:146 | at most 203 characters; starts with the first 200 characters; unchanged exactly when at most 200 long |
| Workflow.BuildSources | backend/app/workflow/financial_workflow.py:143-151 | the loop yields the source list of the chunks, or the `KeyError` of a chunk without metadata |
| Workflow.SourcesOnePerChunk | backend/app/workflow/financial_workflow.py:143-151 | a successful list has one entry per chunk, each with the chunk's truncated content and metadata |
| Workflow.ConvertHistory | backend/app/workflow/financial_workflow.py:182-198 | a missing or empty history gives `[]`; otherwise the recognised entries as dictionaries, in order |
| Workflow.ConvertedMessages | backend/app/workflow/financial_workflow.py:188-197 | chat messages convert one by one, in order; unrecognised entries are dropped |
| Workflow.OlderHistoryIgnored | backend/app/workflow/financial_workflow.py:130 | only the last `n` messages reach the prompt (5 for answers, 3 for summaries and quizzes) |
| Workflow.FinancialState.constructor | backend/app/workflow/financial_workflow.py:414-426 | the initial state: the request's inputs, empty outputs, no route |
| Workflow.FinancialState.Set | backend/app/workflow/state.py:22-28 | one node path's assignments: the fields it sets change and nothing else does |
| Workflow.RouterNode | backend/app/workflow/financial_workflow.py:57-88 | `next_agent` becomes the route; no output field changes |
| Workflow.Contents | backend/app/workflow/financial_workflow.py:300-305 | the chunk texts, in order |
| Workflow.RagAgentNode | backend/app/workflow/financial_workflow.py:96-169 | the state's outputs become the question-answering update for its inputs; the route is unchanged |
| Workflow.NoChunksShortCircuit | backend/app/workflow/financial_workflow.py:112-117 | with no hits the reply is the fixed text, with no sources and a zero count, whatever the language model would say |
| Workflow.QaAnswerShape | backend/app/workflow/financial_workflow.py:137-162 | a successful answer is the model's stripped reply with one source per hit |
| Workflow.SummarizationAgentNode | backend/app/workflow/financial_workflow.py:251-322 | the state's outputs become the summary update; the route is unchanged |
| Workflow.SummaryShape | backend/app/workflow/financial_workflow.py:300-315 | the model sees at most 4000 characters; a summary cites exactly one `multi-document` source |
| Workflow.McqFailsAsWritten | backend/app/workflow/financial_workflow.py:381-384 | as written, with chunks present, the quiz agent always takes its error path (Findings) |
| Workflow.McqCorrectedAnswers | backend/app/workflow/financial_workflow.py:354-393 | with the conversation block supplied, the quiz is the model's answer on at most 4000 characters, citing one `multi-document` source |
| Workflow.McqAgentNode | backend/app/workflow/financial_workflow.py:324-401 | the state's outputs become the (corrected) quiz update; the route is unchanged |
| Workflow.ErrorHandlerReply | backend/app/workflow/financial_workflow.py:403-409 | the reply embeds the error text; sources are empty; metadata holds the error and `agent_type` `error` |
| Workflow.ErrorHandlerNode | backend/app/workflow/financial_workflow.py:403-409 | the state's outputs become the error handler's update |
| Workflow.ProcessRequest | backend/app/workflow/financial_workflow.py:411-449 | the response is route, one node, report, with `agent_type` defaulting to `q&a` |
| Workflow.EveryRequestFailsAsWritten | backend/app/workflow/financial_workflow.py:419 | as written, every request gets the error response (Findings) |
| Workflow.ReadFieldsAsWritten | backend/app/workflow/financial_workflow.py:414-418 | reading `message`, `document_id`, `agent_type` and then `conversation_history` from the request as declared fails on the last |
| Workflow.QaReportsItself | backend/app/workflow/financial_workflow.py:116-168 | every path of the answer agent reports `agent_type` `q&a` |
| Workflow.SummaryReportsItself | backend/app/workflow/financial_workflow.py:265-321 | every path of the summary agent reports `summarization` |
| Workflow.McqReportsItself | backend/app/workflow/financial_workflow.py:338-399 | every path of the quiz agent reports `mcq` |
| Workflow.CorrectedRequestReachesAgents | backend/app/workflow/financial_workflow.py:411-449 | with the history field declared, requests reach the graph and report the route taken |
| Workflow.KeywordRequestReachesAgent | backend/app/workflow/financial_workflow.py:61-79 | without an explicit agent type the reported agent is the keyword route |
| Workflow.UnknownAgentTypeFails | backend/app/workflow/financial_workflow.py:39-48 | an explicit agent type with no edge gives the error response |
| Workflow.ExplicitErrorAgentType | backend/app/workflow/financial_workflow.py:403-409 | an explicit agent type `error` reaches the error handler with no error set, and the reply says `None` |
| LegacyWorkflow.CollectDocumentTypes | workflow/financial_workflow.py:128-131 | the loop collects the set of chunk file types, with `unknown` for a missing one |
| LegacyWorkflow.AnalyticsPromptIff | workflow/financial_workflow.py:133-137 | the analytics prompt is chosen exactly when the query is an analytics query and some chunk is a CSV |
| LegacyWorkflow.LegacyRagAgentNode | workflow/financial_workflow.py:98-172 | the state's outputs become the older answer update; the route is unchanged |
| LegacyWorkflow.LegacyQaScoped | workflow/financial_workflow.py:109-119 | retrieval is scoped to the request's document: only that search matters. With no hits the reply is the fixed text, with only the count in metadata. |
| LegacyWorkflow.DocumentAgentNode | workflow/financial_workflow.py:233-296 | the state's outputs become the older summary or quiz update; the quiz version is lines 298-367 |
| LegacyWorkflow.DocumentIdRequired | workflow/financial_workflow.py:239-243 | without a document id the agent asks for one, with empty sources, and consults nothing |
| LegacyWorkflow.DocumentSourceIsRequested | workflow/financial_workflow.py:281-284 | a successful summary or quiz cites the requested document and sees at most 4000 characters |
| LegacyWorkflow.LegacyProcessRequest | workflow/financial_workflow.py:378-419 | the response is route, one node, report, with `agent_type` defaulting to `rag` |
| LegacyWorkflow.LegacyFailureReportsRag | workflow/financial_workflow.py:168-172 | a failing agent leaves `metadata` unset, so the response reports `rag` |
| LegacyWorkflow.LegacyQaFailureUnset | workflow/financial_workflow.py:168-172 | the answer agent's error path sets no metadata |
| LegacyWorkflow.DocumentFailureUnset | workflow/financial_workflow.py:292-296 | the summary and quiz error paths set no metadata |
| Context.ContentLine | backend/app/api/financial_chatbot.py:80 | `Content: ` then at most 500 characters of the content then `...`, even when nothing was cut |
| Context.ResultLines | backend/app/api/financial_chatbot.py:79-81 | two lines per hit |
| Context.ResultLinesAt | backend/app/api/financial_chatbot.py:79-81 | hit `k` gives its content line and then a blank line |
| Context.DocumentParts | backend/app/api/financial_chatbot.py:73-83 | no parts for no hits; otherwise the header and two lines for each of the first three hits |
| Context.DocumentPartsAt | backend/app/api/financial_chatbot.py:78-81 | of the first three hits, hit `k` is at part `1+2k`, followed by a blank part |
| Context.PrepareContext | backend/app/api/financial_chatbot.py:73-83 | the loop builds the joined parts; the enhanced copy (backend/app/api/enhanced_chatbot.py:68-78) is identical |
| Context.DocumentContextEmptyIff | backend/app/api/financial_chatbot.py:75-76 | the context is empty exactly when there are no hits |
| Context.OnlyTopResultsRendered | backend/app/api/financial_chatbot.py:79 | hits after the third never reach the context |
| Context.ChatMetadata | backend/app/api/financial_chatbot.py:53-58 | the workflow's metadata plus `document_id` and `context_used`, whose value is whether the context is non-empty |
| Context.ContextUsedIff | backend/app/api/financial_chatbot.py:28-57 | `context_used` is true exactly when a document id was given and the search found something |
| HybridChatbot.EntryLines | api/enhanced_chatbot.py:78-81 | three lines per hit |
| HybridChatbot.EntryLinesAt | api/enhanced_chatbot.py:78-81 | hit `k` gives a source line, a content line and a blank line |
| HybridChatbot.Section | api/enhanced_chatbot.py:76-89 | nothing for no hits; otherwise the header and three lines for each of the first `top` hits |
| HybridChatbot.AppendSection | api/enhanced_chatbot.py:76-81 | the loop appends the section to the parts |
| HybridChatbot.PrepareHybridContext | api/enhanced_chatbot.py:71-91 | the context is the permanent section (top 3, titles), then the session section (top 2, file names), joined |
| HybridChatbot.HybridPartCount | api/enhanced_chatbot.py:73-91 | `(p>0 ? 1+3·min(3,p) : 0) + (s>0 ? 1+3·min(2,s) : 0)` parts |
| HybridChatbot.SectionOrder | api/enhanced_chatbot.py:76-89 | the permanent header comes first exactly when there are permanent hits; the session header follows the permanent section |
| HybridChatbot.PermanentEntryAt | api/enhanced_chatbot.py:78-81 | permanent hit `k` gives its title line and its content line |
| HybridChatbot.SessionEntryAt | api/enhanced_chatbot.py:86-89 | session hit `k` gives its file-name line and its content line, after the permanent section |
| HybridChatbot.HybridContextEmptyIff | api/enhanced_chatbot.py:73-91 | the context is empty exactly when both result lists are empty |
| HybridChatbot.CountSources | api/enhanced_chatbot.py:51-55 | the counts are the lengths of the permanent, session and combined lists |
| HybridChatbot.CountsMatchContext | api/enhanced_chatbot.py:51-55 | a non-zero permanent or session count means that section is in the context |
| HybridChatbot.GetDocumentInfo | api/enhanced_chatbot.py:174-181 | no session gives none; otherwise the first session document with that id, or none |
| HybridChatbot.ListDocuments | api/enhanced_chatbot.py:183-197 | with a session, its documents; without one, one permanent entry per domain count |
| HybridChatbot.DeleteDocument | api/enhanced_chatbot.py:199-205 | with a session, removal from the session; otherwise removal of a permanent document |
| DocumentStores.Field | backend/app/api/langgraph_chatbot.py:83-90 | indexing succeeds exactly when the key is present, with its value |
| DocumentStores.UploadOutcome | backend/app/api/financial_chatbot.py:85-132 | what upload stores, sends to the vector store and answers, per outcome of processing and adding |
| DocumentStores.StoredEvenOnError | backend/app/api/financial_chatbot.py:92-93 | a processed document is stored whatever happens afterwards |
| DocumentStores.UploadSucceedsIff | backend/app/api/financial_chatbot.py:112-132 | status `processed` exactly when processing and the vector add succeed and the file type is `pdf` |
| DocumentStores.CsvUploadReportedAsError | backend/app/models/schemas.py:15-17 | a CSV upload is stored but answered with status `error` and an empty document id |
| DocumentStores.InsertKeyIndexed | backend/app/api/financial_chatbot.py:93 | inserting keeps the registry and its insertion order in step |
| DocumentStores.RemoveKeyIndexed | backend/app/api/financial_chatbot.py:200-202 | removing keeps the registry and its insertion order in step |
| DocumentStores.Entry | backend/app/api/financial_chatbot.py:174-181 | an entry succeeds exactly when the required keys are present (`status` too in the LangGraph version), and carries the id |
| DocumentStores.ListingOnePerId | backend/app/api/financial_chatbot.py:172-183 | a listing has one entry per id, in order, or fails at the first entry with a missing key |
| DocumentStores.ListingCoversStore | backend/app/api/financial_chatbot.py:172-183 | a successful listing names every stored document exactly once |
| DocumentStores.FinancialChatbot.constructor | backend/app/api/financial_chatbot.py:18-22 | an empty registry |
| DocumentStores.FinancialChatbot.UploadDocument | backend/app/api/financial_chatbot.py:85-132 | the registry and the vector-store log change as the upload outcome says, and the response is its answer |
| DocumentStores.FinancialChatbot.GetDocumentInfo | backend/app/api/financial_chatbot.py:134-166 | the registry entry if present; otherwise a record built from the vector store's first chunk; otherwise none |
| DocumentStores.FinancialChatbot.RegistryShadowsVectorStore | backend/app/api/financial_chatbot.py:138-140 | for a registered id the vector store is not consulted |
| DocumentStores.FinancialChatbot.ListDocuments | backend/app/api/financial_chatbot.py:168-187 | the listing in insertion order, or `[]` when an entry lacks a key |
| DocumentStores.FinancialChatbot.FailureExtends | backend/app/api/financial_chatbot.py:172-186 | a failing prefix makes the whole listing fail |
| DocumentStores.FinancialChatbot.DeleteDocument | backend/app/api/financial_chatbot.py:189-212 | a vector failure gives false and no change; otherwise the entry is removed, and the answer is true exactly when the vector store deleted something or the entry existed |
| DocumentStores.LangGraphChatbot.constructor | backend/app/api/langgraph_chatbot.py:17-21 | an empty registry |
| DocumentStores.LangGraphChatbot.UploadDocument | backend/app/api/langgraph_chatbot.py:56-103 | the registry and the vector-store log change as the upload outcome says, and the response is its answer |
| DocumentStores.LangGraphChatbot.GetDocumentInfo | backend/app/api/langgraph_chatbot.py:105-107 | exactly the stored record, or none |
| DocumentStores.LangGraphChatbot.ListDocuments | backend/app/api/langgraph_chatbot.py:109-119 | one entry per stored document with its four fields, or the `KeyError` of a missing one |
| DocumentStores.LangGraphChatbot.DeleteDocument | backend/app/api/langgraph_chatbot.py:121-140 | an unknown id or a vector failure gives false and no change; otherwise the entry is removed and the answer is true |
| DocumentStores.ListingShape | backend/app/api/langgraph_chatbot.py:111-119 | a successful listing has one entry per id with that id |
| DocumentStores.PassThroughDelete | backend/app/api/enhanced_chatbot.py:149-161 | true exactly when the vector store reports a deletion |
| DocumentStores.PassThroughList | backend/app/api/enhanced_chatbot.py:132-147 | always empty |
| ServiceConfig.Lookup | core/service_config.py:68-72 | found exactly when the name is a preset name, with that preset |
| ServiceConfig.GetConfiguration | core/service_config.py:65-72 | the four presets are found by name; any other name fails naming the available presets |
| ServiceConfig.ConfigurationNames | core/service_config.py:35-63 | the presets are `development`, `budget`, `standard` and `enterprise`, in that order |
| ServiceConfig.PresetsByName | core/service_config.py:35-63 | each name gives its preset |
| ServiceConfig.AvailableNames | core/service_config.py:69 | the error message lists `development, budget, standard, enterprise` |
| ServiceConfig.ListConfigurations | core/service_config.py:74-77 | exactly the preset names, each with its description |
| ServiceConfig.Settings.constructor | core/service_config.py:79-91 | settings with the given service types and credentials |
| ServiceConfig.ApplyConfiguration | core/service_config.py:79-91 | an unknown name fails and changes nothing; otherwise exactly the three service types take the preset's values |
| ServiceConfig.ValidateVectorStore | core/service_config.py:136-154 | pinecone or zilliz without a key is invalid with one error; chroma is valid with one warning; anything else is valid with no message |
| ServiceConfig.ValidateStorage | core/service_config.py:156-177 | s3 gives up to two errors (credentials, bucket); azure without credentials gives one; local gives a warning |
| ServiceConfig.ValidateDatabase | core/service_config.py:179-200 | postgresql is invalid exactly when there is no URL and a detail is missing; mongodb needs a connection string; sqlite gives a warning |
| ServiceConfig.ValidateConfiguration | core/service_config.py:105-134 | valid exactly when all three are valid, and exactly when there is no error; errors and warnings concatenated in the order vector store, storage, database |
| ServiceConfig.CollectStatuses | core/service_config.py:128-132 | the loop is invalid exactly when some status is, collects the errors of the invalid statuses and the warnings of all, in order |
| ServiceConfig.StatusesCombine | core/service_config.py:113-132 | the combined result spelled out from the three statuses |
| ServiceConfig.DevelopmentAlwaysValid | core/service_config.py:35-42 | after applying `development` the configuration is valid, whatever the credentials |
| ServiceConfig.StandardNeedsCredentials | core/service_config.py:50-56 | after applying `standard`, validity depends exactly on the Pinecone key, the S3 credentials and bucket, and the PostgreSQL settings |
| ServiceConfig.TotalCost | core/service_config.py:250-260 | `Unknown` for an unlisted vector store; `Free tier available` when a component costs exactly `$0`; otherwise the three costs after `~$` |
| ServiceConfig.FreeTierIff | core/service_config.py:255-258 | `Free tier available` exactly when some component's cost is exactly `$0` |
| ServiceConfig.DevelopmentIsFree | core/service_config.py:250-260 | the development preset is in the free tier |
| ServiceConfig.BudgetIsNotFree | core/service_config.py:250-260 | the budget preset's `$0-50` costs are not free, and its estimate begins with a doubled `$` |
| ServiceConfig.StandardEstimate | core/service_config.py:250-260 | the standard preset's estimate, with its doubled `$` |
| ServiceConfig.EnterpriseEstimate | core/service_config.py:250-260 | the enterprise preset's estimate, with its doubled `$` |
| ServiceConfig.OnlyDevelopmentIsFree | core/service_config.py:250-260 | of the four presets, exactly the development one is on the free tier |
| McqParser.Render | frontend/app.py:699-715 | the question div first; just that div when there are neither options nor answers |
| McqParser.AppendItems | frontend/app.py:703-704 | the loop appends one item div per item, in order |
| McqParser.AppendGroup | frontend/app.py:701-712 | a group div only when there are items |
| McqParser.FormatMcqQuestion | frontend/app.py:699-715 | the HTML of one question: question div, options group only for options, answers group only for answers, unescaped |
| McqParser.ReadLine | frontend/app.py:658-691 | one loop pass on the parser's variables, rendering the open question when a new one starts |
| McqParser.ParseMcqResponse | frontend/app.py:650-697 | the groups' HTML, or the message itself when nothing was rendered |
| McqParser.OneBlockPerQuestion | frontend/app.py:665-695 | exactly one group per `Q1:`..`Q10:` line, in input order, each group's question starting with its line |
| McqParser.NoQuestionKeepsMessage | frontend/app.py:665-697 | with no question line the message comes back unchanged |
| McqParser.QuestionsAreRendered | frontend/app.py:694-697 | with a question line the output is the rendered groups, one per question line |
| McqParser.LineRules | frontend/app.py:658-691 | blank lines are ignored; option lines always join the options, even after answers; an answer line opens the answer section, where later lines go; outside it a `Q` line that is not a question is dropped |
| McqParser.Q11IsNotAQuestion | frontend/app.py:665 | `Q11:` is not a question line |
| Text.SplitJoin | frontend/app.py:652 | splitting on a separator and joining with it gives the text back |
| Text.Split | frontend/app.py:652 | `split('\n')` gives at least one part, and no part contains the separator |
| Text.StripShape | frontend/app.py:660 | `strip()` gives the slice between the leading and the trailing whitespace (the characters `str.isspace()` accepts), which starts and ends with a non-space character |
| Text.Lower | backend/app/workflow/financial_workflow.py:61 | `lower()` on ASCII letters: each `A`–`Z` becomes its lower-case letter, every other character is kept, so the length is kept |
| Text.RStripChars | ingestion/pipeline.py:148 | `rstrip(chars)` gives a prefix that does not end in one of the characters, and removes only those characters |
| Text.ParseNatToString | backend/app/ingestion/pipeline.py:282 | the decimal text of a number parses back to that number |
| Collections.LastN | backend/app/workflow/financial_workflow.py:130 | `[-n:]` gives the last `min(n, len)` elements, in order |
| Tabular.NameIdentifies | backend/app/ingestion/pipeline.py:98-111 | in a table whose column names are distinct, a name identifies its column |

## Left out

- Floating-point statistics (`describe`, `corr`, means and standard deviations, `value_counts`,
  monthly sums) and `pd.to_datetime`. The date probe and the time-series step are predicates
  given as parameters, and pandas-rendered text is a function given as a parameter.
- `relevance_score = 1 - distance` (floating point) is not part of a source entry.
- The language model, LangChain templates, LangSmith tracing and LangGraph's compile/invoke
  machinery. The model's answer is a function of the prompt, and the graph is an explicit successor
  function.
- LangChain's exact missing-variables message: the quiz failure carries a fixed text.
- LangGraph's error for an agent type with no edge is modelled as a `KeyError` carrying the label.
- Workflow.SummaryReply, Workflow.SummarizationAgentNode: the summary template is an f-string, so
  the conversation block built from the history is interpolated by Python into the template text
  (the document text stays the template variable `{document_content}`). A history message holding
  `{` or `}` makes `ChatPromptTemplate.from_template` or `invoke` raise, which sends the summary
  node down its `except` path; the model treats the conversation block as plain text and answers
  instead.
- The vector store, the knowledge base and the hybrid knowledge manager are external. Searches,
  chunk listings, deletions and additions are parameters, and additions are logged in a
  `vectorAdds` field. The search is total: exceptions it might raise are not modelled.
- The API wrappers' exception fallbacks (`AgentType.RAG`, `AgentType("error")`) and the remaining
  fields of `process_chat_message`'s response.
- The context passed to `FinancialRequest` is dropped, because the request class declares no such
  field.
- Pydantic's validation message: building a response with a non-PDF type fails with a fixed text.
- `context_chunks`, `document_content` and `completed` of the state record are never read, so they
  are not fields of the model.
- `ReportedAgentType` treats a non-string `agent_type` in the metadata as absent.
- The order of `list(document_types)` is left open: the model keeps a set.
- File and network I/O: PyPDF2 page extraction, `open`/`write`, `uuid4` (the document id is a
  parameter), `os.makedirs` and `requests`.
- DocumentStores.FinancialChatbot.UploadDocument: document ids are text (the `DocumentIdIsText`
  requirement), and vector chunks are assumed to carry their metadata.
- The router's `except` branch cannot be taken, because keyword matching cannot raise, so it is
  not modelled.
- `get_cost_estimate`'s breakdown dictionary and `get_current_configuration` only echo settings.
- The backend enhanced chatbot's upload and get, session management, `search_documents` and
  `get_document_chunks` only delegate to the vector store or the knowledge manager.
- Chunking.ChunkText: the precondition `0 < chunk_size` and `overlap < chunk_size` excludes
  arguments for which the source loop never ends, and also negative sizes with a smaller overlap
  (`chunk_size=-5, overlap=-10`), on which Python terminates with empty slices. The only caller
  passes the defaults 1000 and 200.
- LegacyCsv.RowDisplay: an integer upcast to a float is shown as its digits followed by `.0`, which
  is Python's float text only below 10^16 in magnitude; larger values print in exponent notation
  (`1e+16`) and lose precision beyond 2^53.
- Text.Lower lowers ASCII letters only. Python's `lower()` applies full Unicode case mapping: it
  lowers other letters too (the Kelvin sign U+212A becomes `k`, so a message spelling `key points`
  with it routes to summarization in Python but not in the model) and can change the length
  (`'İ'.lower()` has two characters). The keyword routing and classifiers inherit this.
- Workflow.CorrectedRequestReachesAgents: the correction declares `conversation_history` on the
  request only. The LangGraph state schema `FinancialState` (backend/app/workflow/state.py:9-30)
  declares no such key either, and LangGraph keeps only the keys of its schema, so with the request
  fixed alone the nodes would still read an empty history. The model's state carries the history,
  as it would with both declarations added.
- FastAPI endpoints, the Streamlit UI outside the quiz parser, setup scripts, settings loading
  (only the default constants are used) and logging.

## Findings

| source | as written | input that shows it | evidently intended | confidence | as-written member | corrected member |
|---|---|---|---|---|---|---|
| backend/app/workflow/financial_workflow.py:419 | `process_request` reads `request.conversation_history`, but `FinancialRequest` (backend/app/workflow/state.py:32-36) declares no such field, so an `AttributeError` turns every request into the error response | any request, for example the message `What was revenue?` | the request carries its conversation history into the initial state, and the `FinancialState` schema (backend/app/workflow/state.py:9-30) declares a `conversation_history` key so that LangGraph passes it to the nodes | not executed | Workflow.EveryRequestFailsAsWritten | Workflow.CorrectedRequestReachesAgents |
| backend/app/workflow/financial_workflow.py:381-384 | the quiz template uses `{conversation_context}`, but `invoke` passes only `document_content` and `num_questions`, so with chunks present the quiz agent always takes its error path | any quiz request when the store holds at least one chunk | the conversation block is passed to the template | not executed | Workflow.McqFailsAsWritten | Workflow.McqCorrectedAnswers |
