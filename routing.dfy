/**
 * The two routers of the workflow (agent/graph.py): the halt check right
 * after parsing and the branch after planning. Both are pure functions of
 * the merged state and return the key LangGraph looks up in the edge's
 * branch map.
 */
module Routing {
  import opened Wrappers
  import opened Models
  import opened AgentState

  const EndKey: string := "end"
  const ContinueKey: string := "continue"
  const FetchKey: string := "fetch"
  const ReasonKey: string := "reason"

  /** `check_parsing_error`: "end" exactly when `state.get("error")` is truthy. */
  function CheckParsingError(s: State): (r: string)
    ensures r == EndKey <==> HasError(s)
    ensures r == ContinueKey <==> !HasError(s)
  {
    if s.error.Some? && s.error.value != "" then EndKey else ContinueKey
  }

  /** The halt check reads `error` and nothing else. */
  lemma CheckParsingErrorReadsError(s: State, t: State)
    requires s.error == t.error
    ensures CheckParsingError(s) == CheckParsingError(t)
  {
  }

  /** Whether an intent answers from knowledge alone, skipping the data fetch. */
  predicate SkipsFetch(i: Intent) {
    i == GeneralChat || i == OptionsTrading
  }

  /**
   * `route_query`: "fetch" without a parsed query, "reason" for general
   * chat and options trading, "fetch" for market data and comparative
   * analysis.
   */
  function RouteQuery(s: State): (r: string)
    ensures s.parsedQuery.None? ==> r == FetchKey
    ensures r == ReasonKey <==> s.parsedQuery.Some? && SkipsFetch(s.parsedQuery.value.intent)
    ensures r == FetchKey <==> !(s.parsedQuery.Some? && SkipsFetch(s.parsedQuery.value.intent))
  {
    if s.parsedQuery.None? then FetchKey
    else if s.parsedQuery.value.intent in [GeneralChat, OptionsTrading] then ReasonKey
    else FetchKey
  }

  /** The branch router reads `parsed_query` and nothing else, so it is deterministic in it. */
  lemma RouteQueryReadsQuery(s: State, t: State)
    requires s.parsedQuery == t.parsedQuery
    ensures RouteQuery(s) == RouteQuery(t)
  {
  }

  /** The intents that fetch market data are exactly the other two. */
  lemma FetchIntents(s: State)
    requires s.parsedQuery.Some?
    ensures RouteQuery(s) == FetchKey <==>
      s.parsedQuery.value.intent == MarketData || s.parsedQuery.value.intent == ComparativeAnalysis
  {
  }

  /** The routers a conditional edge can name. */
  datatype Router = ParsingErrorCheck | QueryRouter

  function Route(router: Router, s: State): string {
    match router
    case ParsingErrorCheck => CheckParsingError(s)
    case QueryRouter => RouteQuery(s)
  }

  /** Every key a router can return (the router's `Literal` range). */
  function Range(router: Router): set<string> {
    match router
    case ParsingErrorCheck => {EndKey, ContinueKey}
    case QueryRouter => {FetchKey, ReasonKey}
  }

  lemma RouteInRange(router: Router, s: State)
    ensures Route(router, s) in Range(router)
  {
  }
}
