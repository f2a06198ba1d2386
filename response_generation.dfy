/**
 * The response node (agent/nodes/response_generation.py): plain text for a
 * missing analysis or for general chat, otherwise a markdown report built
 * from the formatting LLM's `FinancialInsight`, or an error when that fails.
 */
module ResponseGeneration {
  import opened Wrappers
  import opened Models
  import opened AgentState

  const NoAnalysis: string := "I could not generate an analysis."
  const FormatErrorPrefix: string := "Error formatting response: "

  /** What `structured_llm.invoke(prompt)` gives: the validated insight, or the exception's message. */
  datatype FormatOutcome = Formatted(insight: FinancialInsight) | FormatRaised(message: string)

  /** The formatting LLM as an oracle, asked with the analysis text and the metrics. */
  type Formatter = (string, seq<MarketMetrics>) -> FormatOutcome

  /** `analysis.get('text', '')`. */
  function AnalysisText(analysis: map<string, string>): string {
    if "text" in analysis then analysis["text"] else ""
  }

  function Row(m: MarketMetrics): Block {
    MetricRow(m.ticker, m.price, m.marketCap, m.peRatio, m.volume)
  }

  /** The table rows: one per metric, in order. */
  function Rows(metrics: seq<MarketMetrics>): (r: seq<Block>)
    ensures |r| == |metrics|
  {
    if metrics == [] then [] else Rows(metrics[..|metrics| - 1]) + [Row(metrics[|metrics| - 1])]
  }

  lemma {:induction false} RowsPointwise(metrics: seq<MarketMetrics>)
    ensures forall i :: 0 <= i < |metrics| ==> Rows(metrics)[i] == Row(metrics[i])
  {
    if metrics != [] {
      RowsPointwise(metrics[..|metrics| - 1]);
    }
  }

  /** The risk list: one bullet per risk factor, in order. */
  function Bullets(risks: seq<string>): (r: seq<Block>)
    ensures |r| == |risks|
  {
    if risks == [] then [] else Bullets(risks[..|risks| - 1]) + [RiskBullet(risks[|risks| - 1])]
  }

  lemma {:induction false} BulletsPointwise(risks: seq<string>)
    ensures forall i :: 0 <= i < |risks| ==> Bullets(risks)[i] == RiskBullet(risks[i])
  {
    if risks != [] {
      BulletsPointwise(risks[..|risks| - 1]);
    }
  }

  /** `if insight.comparative_analysis:` */
  predicate HasComparison(insight: FinancialInsight) {
    insight.comparativeAnalysis.Some? && insight.comparativeAnalysis.value != ""
  }

  /** The title, the executive summary and the key-metrics heading. */
  function Head(insight: FinancialInsight): seq<Block> {
    [Title, SummarySection(insight.executiveSummary), KeyMetricsHeading]
  }

  /** The metrics table: header, separator and rows, or nothing without metrics. */
  function Table(metrics: seq<MarketMetrics>): seq<Block> {
    if metrics != [] then [TableHeader, TableSeparator] + Rows(metrics) else []
  }

  function Comparison(insight: FinancialInsight): seq<Block> {
    if HasComparison(insight) then [ComparisonSection(insight.comparativeAnalysis.value)] else []
  }

  /** The final insight and the disclaimer warning. */
  function Tail(insight: FinancialInsight): seq<Block> {
    [InsightSection(insight.finalInsight), DisclaimerWarning(insight.disclaimer)]
  }

  /** The report's blocks in the order `md_output` receives them. */
  function Markdown(insight: FinancialInsight): seq<Block> {
    Head(insight) + Table(insight.keyMetrics) + Comparison(insight)
    + [RiskFactorsHeading] + Bullets(insight.riskFactors) + Tail(insight)
  }

  predicate IsRow(b: Block) { b.MetricRow? }
  predicate IsBullet(b: Block) { b.RiskBullet? }

  /** The blocks of `bs` that satisfy `p`, in order. */
  function Select(bs: seq<Block>, p: Block -> bool): (r: seq<Block>)
    ensures |r| <= |bs|
  {
    if bs == [] then [] else (if p(bs[0]) then [bs[0]] else []) + Select(bs[1..], p)
  }

  lemma {:induction false} SelectAppend(a: seq<Block>, b: seq<Block>, p: Block -> bool)
    ensures Select(a + b, p) == Select(a, p) + Select(b, p)
  {
    if a == [] {
      assert a + b == b;
    } else {
      var head := if p(a[0]) then [a[0]] else [];
      assert (a + b)[0] == a[0];
      assert (a + b)[1..] == a[1..] + b;
      assert Select(a + b, p) == head + Select(a[1..] + b, p);
      SelectAppend(a[1..], b, p);
      assert Select(a, p) == head + Select(a[1..], p);
    }
  }

  lemma {:induction false} SelectAll(bs: seq<Block>, p: Block -> bool)
    requires forall i :: 0 <= i < |bs| ==> p(bs[i])
    ensures Select(bs, p) == bs
  {
    if bs != [] {
      SelectAll(bs[1..], p);
      assert bs == [bs[0]] + bs[1..];
    }
  }

  lemma {:induction false} SelectNone(bs: seq<Block>, p: Block -> bool)
    requires forall i :: 0 <= i < |bs| ==> !p(bs[i])
    ensures Select(bs, p) == []
  {
    if bs != [] {
      SelectNone(bs[1..], p);
    }
  }

  /** Selection over the six parts of a report. */
  lemma {:induction false} SelectParts(insight: FinancialInsight, p: Block -> bool)
    ensures Select(Markdown(insight), p) ==
      Select(Head(insight), p) + Select(Table(insight.keyMetrics), p) + Select(Comparison(insight), p)
      + Select([RiskFactorsHeading], p) + Select(Bullets(insight.riskFactors), p) + Select(Tail(insight), p)
  {
    var h, t, c, r, b, e := Head(insight), Table(insight.keyMetrics), Comparison(insight), [RiskFactorsHeading], Bullets(insight.riskFactors), Tail(insight);
    SelectAppend(h + t + c + r + b, e, p);
    SelectAppend(h + t + c + r, b, p);
    SelectAppend(h + t + c, r, p);
    SelectAppend(h + t, c, p);
    SelectAppend(h, t, p);
  }

  /** The table rows of the report are the key metrics' rows, in order. */
  lemma {:induction false} MarkdownRows(insight: FinancialInsight)
    ensures Select(Markdown(insight), IsRow) == Rows(insight.keyMetrics)
  {
    var km := insight.keyMetrics;
    var h, t, c, b, e := Head(insight), Table(km), Comparison(insight), Bullets(insight.riskFactors), Tail(insight);
    var r := [RiskFactorsHeading];
    calc {
      Select(Markdown(insight), IsRow);
      == { SelectParts(insight, IsRow); }
      Select(h, IsRow) + Select(t, IsRow) + Select(c, IsRow) + Select(r, IsRow) + Select(b, IsRow) + Select(e, IsRow);
      == { SelectNone(h, IsRow); TableRows(km); SelectNone(c, IsRow); SelectNone(r, IsRow);
           BulletsPointwise(insight.riskFactors); SelectNone(b, IsRow); SelectNone(e, IsRow); }
      [] + Rows(km) + [] + [] + [] + [];
    }
    assert [] + Rows(km) + [] + [] + [] + [] == Rows(km);
  }

  lemma {:induction false} TableRows(km: seq<MarketMetrics>)
    ensures Select(Table(km), IsRow) == Rows(km)
  {
    if km != [] {
      var rows := Rows(km);
      var top := [TableHeader, TableSeparator];
      SelectAppend(top, rows, IsRow);
      assert Select(top, IsRow) == [] by { SelectNone(top, IsRow); }
      assert Select(rows, IsRow) == rows by { RowsPointwise(km); SelectAll(rows, IsRow); }
    }
  }

  /** The bullets of the report are the risk factors, in order. */
  lemma {:induction false} MarkdownBullets(insight: FinancialInsight)
    ensures Select(Markdown(insight), IsBullet) == Bullets(insight.riskFactors)
  {
    var b := Bullets(insight.riskFactors);
    SelectParts(insight, IsBullet);
    OnlyRisksAreBullets(insight);
    assert [] + [] + [] + [] + b + [] == b;
  }

  /** Selecting bullets from each part of a report: only the risk factors contribute. */
  lemma OnlyRisksAreBullets(insight: FinancialInsight)
    ensures Select(Head(insight), IsBullet) == []
    ensures Select(Table(insight.keyMetrics), IsBullet) == []
    ensures Select(Comparison(insight), IsBullet) == []
    ensures Select([RiskFactorsHeading], IsBullet) == []
    ensures Select(Bullets(insight.riskFactors), IsBullet) == Bullets(insight.riskFactors)
    ensures Select(Tail(insight), IsBullet) == []
  {
    SelectNone(Head(insight), IsBullet);
    SelectNone(Comparison(insight), IsBullet);
    SelectNone([RiskFactorsHeading], IsBullet);
    RowsPointwise(insight.keyMetrics);
    SelectNone(Table(insight.keyMetrics), IsBullet);
    SelectNone(Tail(insight), IsBullet);
    BulletsPointwise(insight.riskFactors);
    SelectAll(Bullets(insight.riskFactors), IsBullet);
  }

  /**
   * The report opens with the title, carries the table header and
   * separator exactly when there are key metrics and a comparison section
   * exactly when one is given, and ends with the final insight followed by
   * the disclaimer.
   */
  lemma {:induction false} MarkdownSections(insight: FinancialInsight)
    ensures var md := Markdown(insight);
      && md[0] == Title
      && (TableHeader in md <==> insight.keyMetrics != [])
      && (TableSeparator in md <==> insight.keyMetrics != [])
      && ((exists k :: 0 <= k < |md| && md[k].ComparisonSection?) <==> HasComparison(insight))
      && |md| >= 2 && md[|md| - 2] == InsightSection(insight.finalInsight)
      && md[|md| - 1] == DisclaimerWarning(insight.disclaimer)
  {
    var md := Markdown(insight);
    var prefix := Head(insight) + Table(insight.keyMetrics);
    var rows, bullets := Rows(insight.keyMetrics), Bullets(insight.riskFactors);
    assert md == prefix + Comparison(insight) + [RiskFactorsHeading] + bullets + Tail(insight);
    RowsPointwise(insight.keyMetrics);
    BulletsPointwise(insight.riskFactors);
    if HasComparison(insight) {
      assert md[|prefix|].ComparisonSection?;
    } else {
      assert forall k :: 0 <= k < |md| ==> !md[k].ComparisonSection?;
    }
    if insight.keyMetrics != [] {
      assert md[3] == TableHeader && md[4] == TableSeparator;
    } else {
      assert forall k :: 0 <= k < |md| ==> md[k] != TableHeader && md[k] != TableSeparator;
    }
  }

  /**
   * `generate_response`: a fixed text when there is no analysis, the
   * analysis text for general chat, the report when formatting succeeds,
   * and a prefixed message plus `error` when it raises.
   */
  function Respond(s: State, formatter: Formatter): (u: Update)
    ensures s.analysisResult.GetOr(map[]) == map[] ==> u == Update(finalResponse := Some(Text(NoAnalysis)))
    ensures s.analysisResult.GetOr(map[]) != map[] && s.parsedQuery.Some? && s.parsedQuery.value.intent == GeneralChat ==>
      u == Update(finalResponse := Some(Text(AnalysisText(s.analysisResult.value))))
    ensures Writes(u, FinalResponse)
    ensures Written(u) == {FinalResponse} || Written(u) == {FinalResponse, Error}
    ensures u.error.Some? <==>
      && s.analysisResult.GetOr(map[]) != map[]
      && !(s.parsedQuery.Some? && s.parsedQuery.value.intent == GeneralChat)
      && formatter(AnalysisText(s.analysisResult.value), s.normalizedMetrics.GetOr([])).FormatRaised?
    ensures s.analysisResult.GetOr(map[]) != map[] && !(s.parsedQuery.Some? && s.parsedQuery.value.intent == GeneralChat) ==>
      match formatter(AnalysisText(s.analysisResult.value), s.normalizedMetrics.GetOr([]))
      case Formatted(insight) => u == Update(finalResponse := Some(Report(Markdown(insight))))
      case FormatRaised(e) => u == Update(finalResponse := Some(Text(FormatErrorPrefix + e)), error := Some(e))
  {
    var analysis := s.analysisResult.GetOr(map[]);
    if analysis == map[] then Update(finalResponse := Some(Text(NoAnalysis)))
    else if s.parsedQuery.Some? && s.parsedQuery.value.intent == GeneralChat then
      Update(finalResponse := Some(Text(AnalysisText(analysis))))
    else
      match formatter(AnalysisText(analysis), s.normalizedMetrics.GetOr([]))
      case Formatted(insight) => Update(finalResponse := Some(Report(Markdown(insight))))
      case FormatRaised(e) => Update(finalResponse := Some(Text(FormatErrorPrefix + e)), error := Some(e))
  }

  /**
   * A formatted answer reaches the state as the report the markdown
   * lemmas describe: title first, a table exactly when there are key
   * metrics with one row per metric, a comparison exactly when one is
   * given, one bullet per risk factor, insight and disclaimer last.
   */
  lemma RespondReport(s: State, formatter: Formatter)
    requires s.analysisResult.GetOr(map[]) != map[]
    requires !(s.parsedQuery.Some? && s.parsedQuery.value.intent == GeneralChat)
    requires formatter(AnalysisText(s.analysisResult.value), s.normalizedMetrics.GetOr([])).Formatted?
    ensures var insight := formatter(AnalysisText(s.analysisResult.value), s.normalizedMetrics.GetOr([])).insight;
      var u := Respond(s, formatter);
      && u.finalResponse.Some? && u.finalResponse.value.Report? && u.error.None?
      && var md := u.finalResponse.value.blocks;
      && md[0] == Title
      && (TableHeader in md <==> insight.keyMetrics != [])
      && Select(md, IsRow) == Rows(insight.keyMetrics)
      && ((exists k :: 0 <= k < |md| && md[k].ComparisonSection?) <==> HasComparison(insight))
      && Select(md, IsBullet) == Bullets(insight.riskFactors)
      && |md| >= 2 && md[|md| - 2] == InsightSection(insight.finalInsight)
      && md[|md| - 1] == DisclaimerWarning(insight.disclaimer)
  {
    var insight := formatter(AnalysisText(s.analysisResult.value), s.normalizedMetrics.GetOr([])).insight;
    MarkdownSections(insight);
    MarkdownRows(insight);
    MarkdownBullets(insight);
  }

  /** `generate_response`, appending to `md_output` block by block. */
  method GenerateResponse(s: State, formatter: Formatter) returns (u: Update)
    ensures u == Respond(s, formatter)
  {
    var analysis := s.analysisResult.GetOr(map[]);
    var metrics := s.normalizedMetrics.GetOr([]);
    if analysis == map[] {
      return Update(finalResponse := Some(Text(NoAnalysis)));
    }
    var query := s.parsedQuery;
    if query.Some? && query.value.intent == GeneralChat {
      return Update(finalResponse := Some(Text(AnalysisText(analysis))));
    }
    var outcome := formatter(AnalysisText(analysis), metrics);
    if outcome.FormatRaised? {
      return Update(finalResponse := Some(Text(FormatErrorPrefix + outcome.message)), error := Some(outcome.message));
    }
    var insight := outcome.insight;
    var mdOutput := [Title, SummarySection(insight.executiveSummary), KeyMetricsHeading];
    if insight.keyMetrics != [] {
      mdOutput := mdOutput + [TableHeader, TableSeparator];
      ghost var start := mdOutput;
      var km := insight.keyMetrics;
      for i := 0 to |km|
        invariant mdOutput == start + Rows(km[..i])
      {
        assert km[..i + 1][..i] == km[..i];
        mdOutput := mdOutput + [Row(km[i])];
      }
      assert km[..|km|] == km;
    }
    assert mdOutput == Head(insight) + Table(insight.keyMetrics);
    if HasComparison(insight) {
      mdOutput := mdOutput + [ComparisonSection(insight.comparativeAnalysis.value)];
    }
    assert mdOutput == Head(insight) + Table(insight.keyMetrics) + Comparison(insight);
    mdOutput := mdOutput + [RiskFactorsHeading];
    ghost var beforeRisks := mdOutput;
    var risks := insight.riskFactors;
    for i := 0 to |risks|
      invariant mdOutput == beforeRisks + Bullets(risks[..i])
    {
      assert risks[..i + 1][..i] == risks[..i];
      mdOutput := mdOutput + [RiskBullet(risks[i])];
    }
    assert risks[..|risks|] == risks;
    mdOutput := mdOutput + [InsightSection(insight.finalInsight)];
    mdOutput := mdOutput + [DisclaimerWarning(insight.disclaimer)];
    assert mdOutput == Markdown(insight);
    return Update(finalResponse := Some(Report(mdOutput)));
  }
}
