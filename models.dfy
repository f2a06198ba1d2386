/**
 * The pydantic models of the agent (agent/schemas/models.py): the parsed
 * query, the normalised metrics of one ticker and the structured final
 * report, with pydantic's validation of constructor arguments.
 */
module Models {
  import opened Wrappers
  import opened PyData

  /** The closed set of query intents (`Literal[...]`). */
  datatype Intent = MarketData | ComparativeAnalysis | GeneralChat | OptionsTrading

  /** The spelling of each intent in JSON. */
  function IntentName(i: Intent): string {
    match i
    case MarketData => "market_data"
    case ComparativeAnalysis => "comparative_analysis"
    case GeneralChat => "general_chat"
    case OptionsTrading => "options_trading"
  }

  /** Validation of the `intent` literal: exactly the four spellings are accepted. */
  function ParseIntent(s: string): (r: Option<Intent>)
    ensures r.Some? <==> s in {"market_data", "comparative_analysis", "general_chat", "options_trading"}
    ensures r.Some? ==> IntentName(r.value) == s
  {
    if s == "market_data" then Some(MarketData)
    else if s == "comparative_analysis" then Some(ComparativeAnalysis)
    else if s == "general_chat" then Some(GeneralChat)
    else if s == "options_trading" then Some(OptionsTrading)
    else None
  }

  /** The four spellings are distinct, so the name of an intent parses back to it. */
  lemma IntentRoundTrip(i: Intent)
    ensures ParseIntent(IntentName(i)) == Some(i)
  {
  }

  /** `FinancialQuery`: `language` defaults to "english". */
  datatype FinancialQuery = FinancialQuery(
    tickers: seq<string>,
    intent: Intent,
    timeframe: string,
    originalQuery: string,
    language: string := "english")

  /** `MarketMetrics`: every numeric field defaults to `None`, `currency` to "USD". */
  datatype MarketMetrics = MarketMetrics(
    ticker: string,
    price: Option<real> := None,
    marketCap: Option<real> := None,
    peRatio: Option<real> := None,
    eps: Option<real> := None,
    volume: Option<int> := None,
    currency: string := "USD",
    lastUpdated: string,
    profitMargin: Option<real> := None,
    operatingMargin: Option<real> := None)

  /** `FinancialInsight`, the structured report the formatting LLM returns. */
  datatype FinancialInsight = FinancialInsight(
    executiveSummary: string,
    keyMetrics: seq<MarketMetrics>,
    comparativeAnalysis: Option<string>,
    riskFactors: seq<string>,
    finalInsight: string,
    disclaimer: string)

  /** The defaults the two models declare. */
  lemma Defaults(tickers: seq<string>, intent: Intent, timeframe: string, query: string, ticker: string, now: string)
    ensures FinancialQuery(tickers, intent, timeframe, query).language == "english"
    ensures var m := MarketMetrics(ticker, lastUpdated := now);
      && m.currency == "USD"
      && m.price == m.marketCap == m.peRatio == m.eps == m.profitMargin == m.operatingMargin == None
      && m.volume == None
  {
  }

  // ---------------------------------------------------------------------
  // Pydantic validation of one argument (lax mode).

  /** The outcome of validating one argument: its value, or the failure. */
  datatype Checked<T> = Valid(value: T) | Invalid

  /** An `Optional[float]` field: `None` and numbers (booleans as 0/1) are accepted. */
  function AsOptFloat(v: Json): Checked<Option<real>> {
    match v
    case Null => Valid(None)
    case Bool(b) => Valid(Some(if b then 1.0 else 0.0))
    case Int(i) => Valid(Some(i as real))
    case Float(x) => Valid(Some(x))
    case _ => Invalid
  }

  /** An `Optional[int]` field: a float is accepted only when it has no fractional part. */
  function AsOptInt(v: Json): Checked<Option<int>> {
    match v
    case Null => Valid(None)
    case Bool(b) => Valid(Some(if b then 1 else 0))
    case Int(i) => Valid(Some(i))
    case Float(x) => if x.Floor as real == x then Valid(Some(x.Floor)) else Invalid
    case _ => Invalid
  }

  /** A `str` field: only strings are accepted (`None` is not). */
  function AsStr(v: Json): Checked<string> {
    if v.Str? then Valid(v.s) else Invalid
  }

  predicate AllStr(items: seq<Json>) {
    forall i :: 0 <= i < |items| ==> items[i].Str?
  }

  function Strings(items: seq<Json>): (r: seq<string>)
    requires AllStr(items)
    ensures |r| == |items|
    ensures forall i :: 0 <= i < |items| ==> items[i] == Str(r[i])
  {
    if items == [] then [] else [items[0].s] + Strings(items[1..])
  }

  /** A `List[str]` field. */
  function AsStrList(v: Json): Checked<seq<string>> {
    if v.List? && AllStr(v.items) then Valid(Strings(v.items)) else Invalid
  }

  /** An `intent` field: a string spelling one of the four intents. */
  function AsIntent(v: Json): Checked<Intent> {
    if v.Str? && ParseIntent(v.s).Some? then Valid(ParseIntent(v.s).value) else Invalid
  }

  // ---------------------------------------------------------------------
  // Pydantic validation of a whole model.

  /** The message of a failed validation, naming the first field that failed. */
  function ValidationError(model: string, field: string): string {
    "validation error for " + model + ": " + field
  }

  /**
   * `FinancialQuery(**raw)`: the four required fields must be present with
   * the right types, `language` may be absent; other keys are ignored.
   */
  function ValidateQuery(raw: Object): (r: QueryCheck)
    ensures r.Accepted? <==>
      && AsStrList(Get(raw, "tickers")).Valid?
      && AsIntent(Get(raw, "intent")).Valid?
      && Get(raw, "timeframe").Str?
      && Get(raw, "original_query").Str?
      && ("language" in raw ==> raw["language"].Str?)
    ensures r.Accepted? ==>
      && Get(raw, "tickers") == List(seq(|r.query.tickers|, i requires 0 <= i < |r.query.tickers| => Str(r.query.tickers[i])))
      && Get(raw, "intent") == Str(IntentName(r.query.intent))
      && Get(raw, "timeframe") == Str(r.query.timeframe)
      && Get(raw, "original_query") == Str(r.query.originalQuery)
      && r.query.language == (if "language" in raw then raw["language"].s else "english")
    ensures r.Rejected? ==> r.message == ValidationError("FinancialQuery", r.field)
  {
    var tickers := AsStrList(Get(raw, "tickers"));
    var intent := AsIntent(Get(raw, "intent"));
    var timeframe := AsStr(Get(raw, "timeframe"));
    var original := AsStr(Get(raw, "original_query"));
    var language := if "language" in raw then AsStr(raw["language"]) else Valid("english");
    if tickers.Invalid? then QueryErr("tickers")
    else if intent.Invalid? then QueryErr("intent")
    else if timeframe.Invalid? then QueryErr("timeframe")
    else if original.Invalid? then QueryErr("original_query")
    else if language.Invalid? then QueryErr("language")
    else
      var q := FinancialQuery(tickers.value, intent.value, timeframe.value, original.value, language.value);
      assert Get(raw, "tickers") == List(seq(|q.tickers|, i requires 0 <= i < |q.tickers| => Str(q.tickers[i])));
      Accepted(q)
  }

  /** The outcome of validating a `FinancialQuery`. */
  datatype QueryCheck = Accepted(query: FinancialQuery) | Rejected(field: string, message: string)

  function QueryErr(field: string): QueryCheck {
    Rejected(field, ValidationError("FinancialQuery", field))
  }

  /**
   * `MarketMetrics(ticker=..., ...)` with the given argument values: the
   * metric when every argument validates, `None` when pydantic raises.
   */
  function ValidateMetrics(
    ticker: string, price: Json, marketCap: Json, peRatio: Json, eps: Json,
    volume: Json, currency: Json, lastUpdated: string, profitMargin: Json,
    operatingMargin: Json): (r: Option<MarketMetrics>)
    ensures r.Some? <==>
      && AsOptFloat(price).Valid? && AsOptFloat(marketCap).Valid?
      && AsOptFloat(peRatio).Valid? && AsOptFloat(eps).Valid?
      && AsOptInt(volume).Valid? && currency.Str?
      && AsOptFloat(profitMargin).Valid? && AsOptFloat(operatingMargin).Valid?
    ensures r.Some? ==>
      && r.value.ticker == ticker
      && r.value.lastUpdated == lastUpdated
      && Str(r.value.currency) == currency
      && (price.Null? <==> r.value.price.None?)
      && (price.Float? ==> r.value.price == Some(price.x))
    ensures r.Some? ==>
      && r.value.price == AsOptFloat(price).value
      && r.value.marketCap == AsOptFloat(marketCap).value
      && r.value.peRatio == AsOptFloat(peRatio).value
      && r.value.eps == AsOptFloat(eps).value
      && r.value.volume == AsOptInt(volume).value
      && r.value.profitMargin == AsOptFloat(profitMargin).value
      && r.value.operatingMargin == AsOptFloat(operatingMargin).value
  {
    var p, mc, pe, e := AsOptFloat(price), AsOptFloat(marketCap), AsOptFloat(peRatio), AsOptFloat(eps);
    var vol, cur := AsOptInt(volume), AsStr(currency);
    var pm, om := AsOptFloat(profitMargin), AsOptFloat(operatingMargin);
    if p.Valid? && mc.Valid? && pe.Valid? && e.Valid? && vol.Valid? && cur.Valid? && pm.Valid? && om.Valid? then
      Some(MarketMetrics(ticker, p.value, mc.value, pe.value, e.value, vol.value, cur.value, lastUpdated, pm.value, om.value))
    else
      None
  }
}
