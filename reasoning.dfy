/**
 * The reasoning node (agent/nodes/reasoning.py): a data summary with one
 * block per metric, a context section with the market data and the
 * retrieved documents, one LLM call, and `analysis_result = {"text": ...}`.
 */
module Reasoning {
  import opened Wrappers
  import opened Models
  import opened AgentState

  const NoQueryError: string := "No query to analyze."
  const DocsSeparator: string := "\n\n"

  /** `m.profit_margin * 100 if m.profit_margin else 'N/A'` (and the same for the operating margin). */
  datatype Margin = Percent(value: real) | NotAvailable

  function MarginText(margin: Option<real>): (r: Margin)
    ensures r.NotAvailable? <==> margin.None? || margin.value == 0.0
  {
    if margin.Some? && margin.value != 0.0 then Percent(margin.value * 100.0) else NotAvailable
  }

  /** The summary lines of one metric. */
  datatype SummaryBlock = SummaryBlock(
    ticker: string, price: Option<real>, currency: string, marketCap: Option<real>,
    peRatio: Option<real>, eps: Option<real>, volume: Option<int>,
    profitMargin: Margin, operatingMargin: Margin)

  function Block(m: MarketMetrics): SummaryBlock {
    SummaryBlock(m.ticker, m.price, m.currency, m.marketCap, m.peRatio, m.eps, m.volume,
      MarginText(m.profitMargin), MarginText(m.operatingMargin))
  }

  /** `data_summary`: one block per metric, in order. */
  function Summary(metrics: seq<MarketMetrics>): (r: seq<SummaryBlock>)
    ensures |r| == |metrics|
    ensures forall i :: 0 <= i < |metrics| ==> r[i] == Block(metrics[i])
  {
    if metrics == [] then []
    else Summary(metrics[..|metrics| - 1]) + [Block(metrics[|metrics| - 1])]
  }

  /** `sep.join(parts)`. */
  function Join(parts: seq<string>, sep: string): string {
    if parts == [] then ""
    else if |parts| == 1 then parts[0]
    else Join(parts[..|parts| - 1], sep) + sep + parts[|parts| - 1]
  }

  /**
   * The joined text is empty exactly when there is no document, or a single
   * empty one: two empty documents already join to the separator.
   */
  lemma {:induction false} JoinEmpty(parts: seq<string>, sep: string)
    requires sep != ""
    ensures Join(parts, sep) == "" <==> parts == [] || (|parts| == 1 && parts[0] == "")
  {
    if |parts| > 1 {
      var j := Join(parts[..|parts| - 1], sep);
      assert |j + sep + parts[|parts| - 1]| >= |sep| > 0;
    }
  }

  /** One part of `context_section`. */
  datatype ContextPart = CurrentMarketData(summary: seq<SummaryBlock>) | HistoricalContext(docs: string)

  /**
   * `context_section`: the market data when there are metrics, then the
   * history when the joined documents are non-empty.
   */
  function ContextSection(metrics: seq<MarketMetrics>, docsText: string): (c: seq<ContextPart>)
    ensures |c| == (if metrics != [] then 1 else 0) + (if docsText != "" then 1 else 0)
    ensures metrics != [] ==> c[0] == CurrentMarketData(Summary(metrics))
    ensures docsText != "" ==> c[|c| - 1] == HistoricalContext(docsText)
  {
    (if metrics != [] then [CurrentMarketData(Summary(metrics))] else [])
    + (if docsText != "" then [HistoricalContext(docsText)] else [])
  }

  /** The prompt handed to the analyst LLM, up to its fixed wording. */
  datatype Prompt = Prompt(query: string, intent: Intent, context: seq<ContextPart>)

  /** The analyst LLM's answer, or the exception it raised (not caught by the node). */
  datatype LlmReply = Reply(content: string) | LlmRaised(reason: string)

  type Analyst = Prompt -> LlmReply

  /** The prompt for a query, the metrics and the retrieved documents. */
  function AnalysisPrompt(q: FinancialQuery, metrics: seq<MarketMetrics>, docs: seq<string>): Prompt {
    Prompt(q.originalQuery, q.intent, ContextSection(metrics, Join(docs, DocsSeparator)))
  }

  /**
   * `analyze_market`: an error without a parsed query, otherwise only
   * `analysis_result = {"text": reply}`; an LLM exception escapes the node.
   */
  function Analyze(s: State, analyst: Analyst): (r: NodeResult)
    ensures s.parsedQuery.None? ==> r == Ok(Update(error := Some(NoQueryError)))
    ensures s.parsedQuery.Some? ==>
      var prompt := AnalysisPrompt(s.parsedQuery.value, s.normalizedMetrics.GetOr([]), s.retrievedDocs.GetOr([]));
      match analyst(prompt)
      case Reply(content) => r.Ok? && Written(r.update) == {AnalysisResult} && r.update.analysisResult == Some(map["text" := content])
      case LlmRaised(reason) => r == Fault(reason)
  {
    if s.parsedQuery.None? then Ok(Update(error := Some(NoQueryError)))
    else
      var prompt := AnalysisPrompt(s.parsedQuery.value, s.normalizedMetrics.GetOr([]), s.retrievedDocs.GetOr([]));
      match analyst(prompt)
      case Reply(content) => Ok(Update(analysisResult := Some(map["text" := content])))
      case LlmRaised(reason) => Fault(reason)
  }

  /**
   * The market data part is in the prompt exactly when there are metrics,
   * the history part exactly when the joined documents are non-empty.
   */
  lemma PromptSections(q: FinancialQuery, metrics: seq<MarketMetrics>, docs: seq<string>)
    ensures var c := AnalysisPrompt(q, metrics, docs).context;
      && ((exists k :: 0 <= k < |c| && c[k].CurrentMarketData?) <==> metrics != [])
      && ((exists k :: 0 <= k < |c| && c[k].HistoricalContext?) <==> !(docs == [] || (|docs| == 1 && docs[0] == "")))
  {
    JoinEmpty(docs, DocsSeparator);
    var c := AnalysisPrompt(q, metrics, docs).context;
    if metrics != [] { assert c[0].CurrentMarketData?; }
    if Join(docs, DocsSeparator) != "" { assert c[|c| - 1].HistoricalContext?; }
  }

  /** `analyze_market`, accumulating `data_summary` and `context_section` step by step. */
  method AnalyzeMarket(s: State, analyst: Analyst) returns (r: NodeResult)
    ensures r == Analyze(s, analyst)
  {
    var query := s.parsedQuery;
    var metrics := s.normalizedMetrics.GetOr([]);
    var context := s.retrievedDocs.GetOr([]);
    if query.None? {
      return Ok(Update(error := Some(NoQueryError)));
    }
    var dataSummary: seq<SummaryBlock> := [];
    for i := 0 to |metrics|
      invariant dataSummary == Summary(metrics[..i])
    {
      assert metrics[..i + 1][..i] == metrics[..i];
      dataSummary := dataSummary + [Block(metrics[i])];
    }
    assert metrics[..|metrics|] == metrics;
    var docsText := Join(context, DocsSeparator);
    var contextSection: seq<ContextPart> := [];
    if metrics != [] {
      contextSection := contextSection + [CurrentMarketData(dataSummary)];
    }
    if docsText != "" {
      contextSection := contextSection + [HistoricalContext(docsText)];
    }
    assert contextSection == ContextSection(metrics, docsText);
    var reply := analyst(Prompt(query.value.originalQuery, query.value.intent, contextSection));
    match reply
    case Reply(content) => r := Ok(Update(analysisResult := Some(map["text" := content])));
    case LlmRaised(reason) => r := Fault(reason);
  }
}
