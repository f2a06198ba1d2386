/**
 * The eight node functions registered by `build_graph`
 * (agent/graph.py), and the outside world they consult: the parsing chain,
 * the yfinance feed, the clock reading, the vector store and the two LLMs.
 */
module Nodes {
  import opened Wrappers
  import opened AgentState
  import opened InputParsing
  import opened QueryPlanner
  import opened MarketData
  import opened DataFetch
  import opened DataNormalization
  import opened VectorStore
  import opened Embedding
  import opened Retrieval
  import opened Reasoning
  import opened ResponseGeneration

  /** Everything a run consults besides its state. */
  datatype Env = Env(
    chain: Chain,
    feed: Feed,
    now: string,
    store: Store,
    analyst: Analyst,
    formatter: Formatter)

  /** The node functions of the workflow. */
  datatype NodeFn =
    | ParseInputFn
    | PlanQueryFn
    | FetchDataFn
    | NormalizeDataFn
    | EmbedKnowledgeFn
    | RetrieveContextFn
    | AnalyzeMarketFn
    | GenerateResponseFn

  /**
   * What one node gives on state `s`. Only parsing (an empty message list)
   * and reasoning (the LLM raising) can fault; every other node always
   * returns an update.
   */
  function Step(fn: NodeFn, s: State, env: Env): (r: NodeResult)
    ensures r.Fault? ==> (fn == ParseInputFn && s.messages == []) || fn == AnalyzeMarketFn
    ensures fn == PlanQueryFn || fn == EmbedKnowledgeFn ==> r == Ok(Empty)
  {
    match fn
    case ParseInputFn => ParseInput(s, env.chain)
    case PlanQueryFn => Ok(PlanQuery(s))
    case FetchDataFn => Ok(FetchData(s, env.feed))
    case NormalizeDataFn => Ok(NormalizeUpdate(s, env.now))
    case EmbedKnowledgeFn => Ok(Empty)
    case RetrieveContextFn => Ok(RetrieveContext(s, env.store))
    case AnalyzeMarketFn => Analyze(s, env.analyst)
    case GenerateResponseFn => Ok(Respond(s, env.formatter))
  }

  /** How a run executes a node: the graph runtime sees nodes only through this. */
  type Executor = (NodeFn, State) -> NodeResult

  /** Executing nodes against the services in `env`. */
  function Exec(env: Env): Executor {
    (fn: NodeFn, s: State) => Step(fn, s, env)
  }

  /** Calling a node: the imperative nodes run as written, the others are evaluated. */
  method Execute(fn: NodeFn, s: State, env: Env) returns (r: NodeResult)
    ensures r == Step(fn, s, env)
  {
    match fn {
      case ParseInputFn =>
        r := ParseInput(s, env.chain);
      case PlanQueryFn =>
        r := Ok(PlanQuery(s));
      case FetchDataFn =>
        var u := RunFetchData(s, env.feed);
        r := Ok(u);
      case NormalizeDataFn =>
        var u := NormalizeData(s, env.now);
        r := Ok(u);
      case EmbedKnowledgeFn =>
        var u, _, _ := EmbedKnowledge(s, env.store);
        r := Ok(u);
      case RetrieveContextFn =>
        r := Ok(RetrieveContext(s, env.store));
      case AnalyzeMarketFn =>
        r := AnalyzeMarket(s, env.analyst);
      case GenerateResponseFn =>
        var u := GenerateResponse(s, env.formatter);
        r := Ok(u);
    }
  }
}
