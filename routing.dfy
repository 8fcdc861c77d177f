/** Keyword routing and the workflow graph of `FinancialWorkflow` (both versions): the router node's
    keyword classification and explicit override, `_route_decision`, the conditional edges and the
    query classifiers of the RAG agent. */
module Routing {
  import opened Results
  import opened Text

  /** A classification rule: when the lowered text contains any of `keywords`, the answer is `outcome`. */
  datatype Rule = Rule(keywords: seq<string>, outcome: string)

  /** First-match classification, as the `if any(...) / elif any(...) / else` chains of the source. */
  function Classify(s: string, rules: seq<Rule>, default: string): string
  {
    if rules == [] then default
    else if ContainsAny(s, rules[0].keywords) then rules[0].outcome
    else Classify(s, rules[1..], default)
  }

  /** The first rule whose keywords occur decides; rules after it are not consulted. */
  lemma {:induction false} ClassifyFirstMatch(s: string, rules: seq<Rule>, default: string, i: nat)
    requires i < |rules| && ContainsAny(s, rules[i].keywords)
    requires forall j :: 0 <= j < i ==> !ContainsAny(s, rules[j].keywords)
    ensures Classify(s, rules, default) == rules[i].outcome
  {
    if i > 0 {
      ClassifyFirstMatch(s, rules[1..], default, i - 1);
    }
  }

  /** When no rule's keywords occur, the default is the answer. */
  lemma {:induction false} ClassifyDefault(s: string, rules: seq<Rule>, default: string)
    requires forall j :: 0 <= j < |rules| ==> !ContainsAny(s, rules[j].keywords)
    ensures Classify(s, rules, default) == default
  {
    if rules != [] {
      ClassifyDefault(s, rules[1..], default);
    }
  }

  /** Every answer is the default or the outcome of a rule that matched, with no earlier rule matching. */
  lemma {:induction false} ClassifyJustified(s: string, rules: seq<Rule>, default: string)
    ensures var r := Classify(s, rules, default);
      r == default || exists i :: 0 <= i < |rules| && ContainsAny(s, rules[i].keywords) && r == rules[i].outcome
  {
    if rules != [] && !ContainsAny(s, rules[0].keywords) {
      ClassifyJustified(s, rules[1..], default);
      var r := Classify(s, rules, default);
      if r != default {
        var i :| 0 <= i < |rules[1..]| && ContainsAny(s, rules[1..][i].keywords) && r == rules[1..][i].outcome;
        assert rules[1..][i] == rules[i + 1];
      }
    }
  }

  /** The keyword lists and default outcome of one router version. */
  datatype RouterConfig = RouterConfig(summaryKeywords: seq<string>, mcqKeywords: seq<string>, defaultLabel: string)
  {
    function Rules(): seq<Rule> {
      [Rule(summaryKeywords, "summarization"), Rule(mcqKeywords, "mcq")]
    }
  }

  /** The current router: nine keywords each, default `"q&a"`. */
  const Backend := RouterConfig(
    ["summarize", "summary", "executive summary", "key points", "overview", "brief", "synopsis", "recap", "highlights"],
    ["quiz", "test", "questions", "mcq", "multiple choice", "examination", "assessment", "practice", "questions about"],
    "q&a")

  /** The older router: four and five keywords, default `"rag"`. */
  const Legacy := RouterConfig(
    ["summarize", "summary", "executive summary", "key points"],
    ["quiz", "test", "questions", "mcq", "multiple choice"],
    "rag")

  /** The router's keyword decision on the lowered message. */
  function KeywordRoute(cfg: RouterConfig, message: string): string {
    Classify(Lower(message), cfg.Rules(), cfg.defaultLabel)
  }

  /** Precedence of the router: a summary keyword wins over a quiz keyword, and the default is
      chosen exactly when neither list matches. */
  lemma RoutePrecedence(cfg: RouterConfig, message: string)
    requires cfg.defaultLabel != "summarization" && cfg.defaultLabel != "mcq"
    ensures var m := Lower(message);
      (KeywordRoute(cfg, message) == "summarization" <==> ContainsAny(m, cfg.summaryKeywords)) &&
      (KeywordRoute(cfg, message) == "mcq" <==> !ContainsAny(m, cfg.summaryKeywords) && ContainsAny(m, cfg.mcqKeywords)) &&
      (KeywordRoute(cfg, message) == cfg.defaultLabel <==>
        !ContainsAny(m, cfg.summaryKeywords) && !ContainsAny(m, cfg.mcqKeywords))
  {
    var m, rules := Lower(message), cfg.Rules();
    if ContainsAny(m, cfg.summaryKeywords) {
      ClassifyFirstMatch(m, rules, cfg.defaultLabel, 0);
    } else if ContainsAny(m, cfg.mcqKeywords) {
      ClassifyFirstMatch(m, rules, cfg.defaultLabel, 1);
    } else {
      ClassifyDefault(m, rules, cfg.defaultLabel);
    }
  }

  /** `if state.get("agent_type"): agent_type = state["agent_type"]`: a non-empty explicit agent type
      replaces the keyword decision verbatim, whatever it is. */
  function Route(cfg: RouterConfig, message: string, agentType: Option<string>): (outcome: string)
    ensures Truthy(agentType) ==> outcome == agentType.value
    ensures !Truthy(agentType) ==> outcome == KeywordRoute(cfg, message)
  {
    if Truthy(agentType) then agentType.value else KeywordRoute(cfg, message)
  }

  /** Lowering is idempotent, so the router sees the same text whether or not the caller lowered it. */
  lemma LowerIdempotent(s: string)
    ensures Lower(Lower(s)) == Lower(s)
  {
    assert forall k :: 0 <= k < |s| ==> LowerChar(LowerChar(s[k])) == LowerChar(s[k]);
  }

  /** Routing ignores letter case. */
  lemma RouteIgnoresCase(cfg: RouterConfig, message: string)
    ensures KeywordRoute(cfg, Lower(message)) == KeywordRoute(cfg, message)
  {
    LowerIdempotent(message);
  }

  lemma ContainsExtend(s: string, t: string, sub: string)
    requires Contains(s, sub)
    ensures Contains(s + t, sub)
  {
    var i: nat :| i <= |s| && OccursAt(s, sub, i);
    assert (s + t)[i..i + |sub|] == s[i..i + |sub|];
    assert OccursAt(s + t, sub, i);
  }

  lemma ContainsAnyExtend(s: string, t: string, keywords: seq<string>)
    requires ContainsAny(s, keywords)
    ensures ContainsAny(s + t, keywords)
  {
    var k :| 0 <= k < |keywords| && Contains(s, keywords[k]);
    ContainsExtend(s, t, keywords[k]);
  }

  lemma LowerAppend(s: string, t: string)
    ensures Lower(s + t) == Lower(s) + Lower(t)
  {
  }

  /** Adding text to a message that asks for a summary keeps it a summary request: the keyword
      test is a substring test, so more text can only add matches. */
  lemma SummaryStableUnderExtension(cfg: RouterConfig, message: string, more: string)
    requires cfg.defaultLabel != "summarization" && cfg.defaultLabel != "mcq"
    requires KeywordRoute(cfg, message) == "summarization"
    ensures KeywordRoute(cfg, message + more) == "summarization"
  {
    RoutePrecedence(cfg, message);
    LowerAppend(message, more);
    ContainsAnyExtend(Lower(message), Lower(more), cfg.summaryKeywords);
    RoutePrecedence(cfg, message + more);
  }

  /** The older keyword lists are the first entries of the current ones. */
  lemma ContainsAnyPrefix(s: string, keywords: seq<string>, n: nat)
    requires n <= |keywords| && ContainsAny(s, keywords[..n])
    ensures ContainsAny(s, keywords)
  {
    var k :| 0 <= k < n && Contains(s, keywords[..n][k]);
    assert keywords[..n][k] == keywords[k];
  }

  /** Where the two routers disagree, the current one chose a summary or a quiz that the older one
      did not see: every older summary is a current summary, every older quiz is a current summary or
      quiz, and every current question-answer route is an older RAG route. */
  lemma LegacyRouteRefined(message: string)
    ensures KeywordRoute(Legacy, message) == "summarization" ==> KeywordRoute(Backend, message) == "summarization"
    ensures KeywordRoute(Legacy, message) == "mcq" ==> KeywordRoute(Backend, message) in {"summarization", "mcq"}
    ensures KeywordRoute(Backend, message) == "q&a" ==> KeywordRoute(Legacy, message) == "rag"
  {
    var m := Lower(message);
    assert Backend.summaryKeywords[..4] == Legacy.summaryKeywords;
    assert Backend.mcqKeywords[..5] == Legacy.mcqKeywords;
    RoutePrecedence(Legacy, message);
    RoutePrecedence(Backend, message);
    if ContainsAny(m, Legacy.summaryKeywords) {
      ContainsAnyPrefix(m, Backend.summaryKeywords, 4);
    }
    if ContainsAny(m, Legacy.mcqKeywords) {
      ContainsAnyPrefix(m, Backend.mcqKeywords, 5);
    }
  }

  lemma NotContainsLonger(s: string, sub: string)
    requires |sub| > |s|
    ensures !Contains(s, sub)
  {
  }

  /** `sub` does not occur in a text one character longer than it when neither of the two
      candidate positions holds it. */
  lemma NotContainsAt(s: string, sub: string)
    requires |s| == |sub| + 1 && s[..|sub|] != sub && s[1..] != sub
    ensures !Contains(s, sub)
  {
    forall i: nat | i <= |s| ensures !OccursAt(s, sub, i) {
      if i + |sub| <= |s| {
        assert i == 0 || i == 1;
      }
    }
  }

  lemma LatestHasNoSummaryKeyword()
    ensures !ContainsAny("latest", Backend.summaryKeywords)
  {
    var kws := Backend.summaryKeywords;
    forall k | 0 <= k < |kws| ensures !Contains("latest", kws[k]) {
      if k == 5 {
        assert kws[k] == "brief";
        assert "latest"[..5][0] != 'b' && "latest"[1..][0] != 'b';
        NotContainsAt("latest", "brief");
      } else if k == 7 {
        assert kws[k] == "recap";
        assert "latest"[..5][0] != 'r' && "latest"[1..][0] != 'r';
        NotContainsAt("latest", "recap");
      } else {
        assert |kws[k]| > 6;
        NotContainsLonger("latest", kws[k]);
      }
    }
  }

  lemma LowerLatest()
    ensures Lower("latest") == "latest"
  {
  }

  /** Substring matching misroutes: "latest" contains "test", so a question about the latest figures
      is sent to the quiz generator by both routers. */
  lemma LatestRoutesToQuiz()
    ensures Route(Backend, "latest", None) == "mcq"
    ensures Route(Legacy, "latest", None) == "mcq"
  {
    LowerLatest();
    LatestHasNoSummaryKeyword();
    assert Backend.mcqKeywords[1] == "test" && OccursAt("latest", "test", 2);
    RoutePrecedence(Backend, "latest");
    assert Backend.summaryKeywords[..4] == Legacy.summaryKeywords;
    if ContainsAny("latest", Legacy.summaryKeywords) {
      ContainsAnyPrefix("latest", Backend.summaryKeywords, 4);
    }
    assert Legacy.mcqKeywords[1] == "test";
    RoutePrecedence(Legacy, "latest");
  }

  /** `_route_decision`: a set error wins; otherwise the router's `next_agent`, or the version's
      default when none was recorded. */
  function RouteDecision(cfg: RouterConfig, error: Option<string>, nextAgent: Option<string>): (outcome: string)
    ensures Truthy(error) ==> outcome == "error"
    ensures !Truthy(error) && nextAgent.Some? ==> outcome == nextAgent.value
    ensures !Truthy(error) && nextAgent.None? ==> outcome == cfg.defaultLabel
  {
    if Truthy(error) then "error" else nextAgent.GetOr(cfg.defaultLabel)
  }

  /** The nodes of the compiled graph. */
  datatype Node = Router | RagAgent | SummarizationAgent | McqAgent | ErrorHandler | End

  /** The router's conditional edges: the version's default outcome leads to the RAG agent; a outcome
      outside the mapping has no edge (LangGraph raises). */
  function Branch(cfg: RouterConfig, outcome: string): (n: Option<Node>)
    ensures n.Some? ==> n.value in {RagAgent, SummarizationAgent, McqAgent, ErrorHandler}
  {
    if outcome == cfg.defaultLabel then Some(RagAgent)
    else if outcome == "summarization" then Some(SummarizationAgent)
    else if outcome == "mcq" then Some(McqAgent)
    else if outcome == "error" then Some(ErrorHandler)
    else None
  }

  /** The successor of a node: the router follows `Branch`, every agent and the error handler go to
      `END`, and `END` has no successor. */
  function Successor(cfg: RouterConfig, n: Node, outcome: string): Option<Node> {
    match n
    case Router => Branch(cfg, outcome)
    case End => None
    case _ => Some(End)
  }

  /** The nodes a run visits from the entry point, at most `fuel` steps deep. */
  function Walk(cfg: RouterConfig, n: Node, outcome: string, fuel: nat): seq<Node>
    decreases fuel
  {
    if fuel == 0 then [n]
    else match Successor(cfg, n, outcome)
      case None => [n]
      case Some(m) => [n] + Walk(cfg, m, outcome, fuel - 1)
  }

  /** The graph has no loops: whatever the routing outcome and however much fuel, a run from the entry
      point is the router, at most one agent, then `END`, and the error handler is reached only by
      the `"error"` outcome, never after an agent. */
  lemma RunShape(cfg: RouterConfig, outcome: string, fuel: nat)
    requires fuel >= 2
    ensures var w := Walk(cfg, Router, outcome, fuel);
      match Branch(cfg, outcome)
      case None => w == [Router]
      case Some(a) => w == [Router, a, End]
    ensures ErrorHandler in Walk(cfg, Router, outcome, fuel) ==> outcome == "error" && cfg.defaultLabel != "error"
  {
    match Branch(cfg, outcome)
    case None =>
    case Some(a) =>
      assert Walk(cfg, End, outcome, fuel - 2) == [End];
      assert Walk(cfg, a, outcome, fuel - 1) == [a, End];
  }

  /** Every route outcome of a router with a distinct default reaches a node; an unmapped explicit
      agent type does not. */
  lemma KeywordLabelsAreMapped(cfg: RouterConfig, message: string)
    requires cfg.defaultLabel !in {"summarization", "mcq", "error"}
    ensures Branch(cfg, KeywordRoute(cfg, message)).Some?
    ensures Branch(cfg, "error") == Some(ErrorHandler)
  {
    ClassifyJustified(Lower(message), cfg.Rules(), cfg.defaultLabel);
  }

  /** `_get_query_complexity`: "simple" keywords first, then "complex" ones, else "moderate". */
  const SimpleKeywords := ["what is", "define", "explain briefly", "quick", "simple", "basic"]
  const ComplexKeywords := [
    "comprehensive", "detailed", "thorough", "complete analysis", "compare and contrast", "pros and cons",
    "advantages and disadvantages", "step by step", "how to", "process", "methodology", "strategy"]

  function QueryComplexity(query: string): string {
    Classify(Lower(query), [Rule(SimpleKeywords, "simple"), Rule(ComplexKeywords, "complex")], "moderate")
  }

  /** The complexity is one of three levels, "simple" wins over "complex", and "moderate" means no
      keyword of either list occurs. */
  lemma ComplexityLevels(query: string)
    ensures var q, c := Lower(query), QueryComplexity(query);
      (c == "simple" <==> ContainsAny(q, SimpleKeywords)) &&
      (c == "complex" <==> !ContainsAny(q, SimpleKeywords) && ContainsAny(q, ComplexKeywords)) &&
      (c == "moderate" <==> !ContainsAny(q, SimpleKeywords) && !ContainsAny(q, ComplexKeywords))
  {
    var q := Lower(query);
    var rules := [Rule(SimpleKeywords, "simple"), Rule(ComplexKeywords, "complex")];
    if ContainsAny(q, SimpleKeywords) {
      ClassifyFirstMatch(q, rules, "moderate", 0);
    } else if ContainsAny(q, ComplexKeywords) {
      ClassifyFirstMatch(q, rules, "moderate", 1);
    } else {
      ClassifyDefault(q, rules, "moderate");
    }
  }

  /** `_is_analytics_query` (the same list in both versions). */
  const AnalyticsKeywords := [
    "kpi", "trends", "analytics", "insights", "anomalies", "analysis", "calculate", "computation",
    "statistics", "metrics", "performance", "revenue", "profit", "margin", "growth", "decline",
    "correlation", "pattern", "forecast", "prediction", "comparison", "ratio"]

  predicate IsAnalyticsQuery(query: string) {
    ContainsAny(Lower(query), AnalyticsKeywords)
  }

  /** A query that mentions revenue is an analytics query, in any letter case, and stays one however
      it continues. */
  lemma RevenueIsAnalytics(query: string, more: string)
    requires Contains(Lower(query), "revenue")
    ensures IsAnalyticsQuery(query) && IsAnalyticsQuery(query + more)
  {
    assert AnalyticsKeywords[11] == "revenue";
    LowerAppend(query, more);
    ContainsAnyExtend(Lower(query), Lower(more), AnalyticsKeywords);
  }
}
