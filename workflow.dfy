/**
 * The workflow of agent/graph.py: the topology `build_graph` assembles,
 * the builder calls that assemble it, and what running it does — proved by
 * relating the generic runtime on this topology to the node functions
 * called one after another by hand.
 */
module Workflow {
  import opened Wrappers
  import opened PyData
  import opened Models
  import opened AgentState
  import opened InputParsing
  import opened QueryPlanner
  import opened DataFetch
  import opened DataNormalization
  import opened Retrieval
  import opened Reasoning
  import opened ResponseGeneration
  import opened Routing
  import opened Nodes
  import opened Runtime

  /** The node names `build_graph` declares. */
  datatype Name =
    | ParsingNode
    | PlannerNode
    | FetchNode
    | NormalizationNode
    | EmbeddingNode
    | RetrievalNode
    | ReasoningNode
    | ResponseNode

  /** The name as the source spells it. */
  function Spelling(n: Name): string {
    match n
    case ParsingNode => "input_parsing"
    case PlannerNode => "query_planner"
    case FetchNode => "data_fetch"
    case NormalizationNode => "data_normalization"
    case EmbeddingNode => "embedding"
    case RetrievalNode => "retrieval"
    case ReasoningNode => "reasoning"
    case ResponseNode => "response_generation"
  }

  /** The three complete paths: stopped after parsing, the knowledge branch, the data branch. */
  const ParseOnlyPath: seq<Name> := [ParsingNode]
  const ReasonPath: seq<Name> := [ParsingNode, PlannerNode, ReasoningNode, ResponseNode]
  const FetchPath: seq<Name> :=
    [ParsingNode, PlannerNode, FetchNode, NormalizationNode, EmbeddingNode, RetrievalNode, ReasoningNode, ResponseNode]

  /** The nodes only the data branch runs. */
  const DataNodes: set<Name> := {FetchNode, NormalizationNode, EmbeddingNode, RetrievalNode}

  /** The graph `build_graph` compiles. */
  function Topology(): Graph<Name> {
    Graph(
      [ (ParsingNode, ParseInputFn), (PlannerNode, PlanQueryFn), (FetchNode, FetchDataFn),
        (NormalizationNode, NormalizeDataFn), (EmbeddingNode, EmbedKnowledgeFn),
        (RetrievalNode, RetrieveContextFn), (ReasoningNode, AnalyzeMarketFn),
        (ResponseNode, GenerateResponseFn) ],
      ParsingNode,
      map[
        ParsingNode := Conditional(ParsingErrorCheck, map[EndKey := End, ContinueKey := To(PlannerNode)]),
        PlannerNode := Conditional(QueryRouter, map[FetchKey := To(FetchNode), ReasonKey := To(ReasoningNode)]),
        FetchNode := Static(To(NormalizationNode)),
        NormalizationNode := Static(To(EmbeddingNode)),
        EmbeddingNode := Static(To(RetrievalNode)),
        RetrievalNode := Static(To(ReasoningNode)),
        ReasoningNode := Static(To(ResponseNode)),
        ResponseNode := Static(End)])
  }

  /** The first `k` nodes `build_graph` declares, with their functions. */
  function Declared(k: nat): Table<Name, NodeFn>
    requires k <= |FetchPath|
  {
    seq(k, i requires 0 <= i < k => (FetchPath[i], FnOf(FetchPath[i])))
  }

  lemma DeclaredKeys(k: nat)
    requires k <= |FetchPath|
    ensures Keys(Declared(k)) == FetchPath[..k]
  {
  }

  /** Declaring the next node of `FetchPath` succeeds, since its name is new. */
  method DeclareNext(workflow: StateGraph<Name>, k: nat)
    requires k < |FetchPath|
    requires workflow.Valid() && workflow.nodes == Declared(k)
    modifies workflow
    ensures workflow.Valid() && workflow.nodes == Declared(k + 1)
    ensures workflow.entry == old(workflow.entry) && workflow.edges == old(workflow.edges)
  {
    DeclaredKeys(k);
    assert FetchPath[k] !in FetchPath[..k] by {
      RankOfPath(k);
      forall i | 0 <= i < k ensures FetchPath[i] != FetchPath[k] {
        RankOfPath(i);
      }
    }
    var added := workflow.AddNode(FetchPath[k], FnOf(FetchPath[k]));
    assert workflow.nodes == Declared(k) + [(FetchPath[k], FnOf(FetchPath[k]))];
  }

  /** The eight `add_node` calls of `build_graph`. */
  method DeclareNodes(workflow: StateGraph<Name>)
    requires workflow.Valid() && workflow.nodes == []
    modifies workflow
    ensures workflow.Valid() && workflow.nodes == Topology().nodes
    ensures workflow.entry == old(workflow.entry) && workflow.edges == old(workflow.edges)
  {
    assert workflow.nodes == Declared(0);
    DeclareNext(workflow, 0);
    DeclareNext(workflow, 1);
    DeclareNext(workflow, 2);
    DeclareNext(workflow, 3);
    DeclareNext(workflow, 4);
    DeclareNext(workflow, 5);
    DeclareNext(workflow, 6);
    DeclareNext(workflow, 7);
    assert Declared(8) == Topology().nodes;
  }

  /** The two conditional and six plain edges of `build_graph`. */
  method WireEdges(workflow: StateGraph<Name>)
    requires workflow.Valid() && workflow.edges == map[]
    modifies workflow
    ensures workflow.Valid() && workflow.edges == Topology().edges
    ensures workflow.nodes == old(workflow.nodes) && workflow.entry == old(workflow.entry)
  {
    var added := workflow.AddConditionalEdges(ParsingNode, ParsingErrorCheck, map[EndKey := End, ContinueKey := To(PlannerNode)]);
    added := workflow.AddConditionalEdges(PlannerNode, QueryRouter, map[FetchKey := To(FetchNode), ReasonKey := To(ReasoningNode)]);
    added := workflow.AddEdge(FetchNode, To(NormalizationNode));
    added := workflow.AddEdge(NormalizationNode, To(EmbeddingNode));
    added := workflow.AddEdge(EmbeddingNode, To(RetrievalNode));
    added := workflow.AddEdge(RetrievalNode, To(ReasoningNode));
    added := workflow.AddEdge(ReasoningNode, To(ResponseNode));
    added := workflow.AddEdge(ResponseNode, End);
  }

  /** `build_graph`: declare the nodes, set the entry point, wire the edges, compile. */
  method BuildGraph() returns (g: Option<Graph<Name>>)
    ensures g == Some(Topology())
  {
    var workflow := new StateGraph<Name>();
    DeclareNodes(workflow);
    workflow.SetEntryPoint(ParsingNode);
    WireEdges(workflow);
    TopologyClosed();
    g := workflow.Compile();
  }

  lemma TopologyClosed()
    ensures Closed(Topology().nodes, Topology().entry, Topology().edges)
  {
    var g := Topology();
    TopologyPos(g.entry);
    forall src | src in g.edges
      ensures src in Keys(g.nodes)
    {
      TopologyPos(src);
    }
    forall src, t | src in g.edges && t in Targets(g.edges[src]) && t.To?
      ensures t.name in Keys(g.nodes)
    {
      TopologyPos(t.name);
    }
  }

  /** The declaration position of each name (its index in `FetchPath`). */
  function Rank(n: Name): nat {
    match n
    case ParsingNode => 0
    case PlannerNode => 1
    case FetchNode => 2
    case NormalizationNode => 3
    case EmbeddingNode => 4
    case RetrievalNode => 5
    case ReasoningNode => 6
    case ResponseNode => 7
  }

  lemma TopologyKeys()
    ensures Keys(Topology().nodes) == FetchPath
  {
  }

  /** `Rank` inverts indexing into `FetchPath`. */
  lemma RankOfPath(j: int)
    requires 0 <= j < |FetchPath|
    ensures Rank(FetchPath[j]) == j
  {
    assert j == 0 || j == 1 || j == 2 || j == 3 || j == 4 || j == 5 || j == 6 || j == 7;
  }

  /** A node's first position in `FetchPath` is its rank. */
  lemma PathIndex(n: Name)
    ensures n in FetchPath && IndexOf(FetchPath, n) == Rank(n)
  {
    assert FetchPath[Rank(n)] == n;
    RankOfPath(IndexOf(FetchPath, n));
  }

  lemma TopologyPos(n: Name)
    ensures n in Keys(Topology().nodes) && Pos(Topology(), n) == Rank(n)
  {
    TopologyKeys();
    PathIndex(n);
  }

  /** Where each node's edge can lead. */
  function TargetsOf(n: Name): set<Target<Name>> {
    match n
    case ParsingNode => {End, To(PlannerNode)}
    case PlannerNode => {To(FetchNode), To(ReasoningNode)}
    case FetchNode => {To(NormalizationNode)}
    case NormalizationNode => {To(EmbeddingNode)}
    case EmbeddingNode => {To(RetrievalNode)}
    case RetrievalNode => {To(ReasoningNode)}
    case ReasoningNode => {To(ResponseNode)}
    case ResponseNode => {End}
  }

  lemma TopologyTargets(n: Name)
    ensures n in Topology().edges && Targets(Topology().edges[n]) == TargetsOf(n)
  {
    var e := Topology().edges[n];
    if n == ParsingNode {
      assert e.branches[EndKey] == End && e.branches[ContinueKey] == To(PlannerNode);
    } else if n == PlannerNode {
      assert e.branches[FetchKey] == To(FetchNode) && e.branches[ReasonKey] == To(ReasoningNode);
    }
  }

  /** Every edge leads to a node ranked after its source. */
  lemma TargetsLater(n: Name, t: Target<Name>)
    requires t in TargetsOf(n) && t.To?
    ensures Rank(n) < Rank(t.name)
  {
  }

  lemma TopologyDistinct()
    ensures WellFormed(Topology())
  {
    TopologyClosed();
    TopologyKeys();
    var nodes := Topology().nodes;
    forall i, j | 0 <= i < j < |nodes|
      ensures nodes[i].0 != nodes[j].0
    {
      assert nodes[i].0 == FetchPath[i] && nodes[j].0 == FetchPath[j];
      RankOfPath(i);
      RankOfPath(j);
    }
  }

  lemma TopologyTotal()
    ensures Total(Topology())
  {
  }

  lemma TopologyForward()
    ensures Forward(Topology())
  {
    var g := Topology();
    forall src, t | src in g.edges && t in Targets(g.edges[src]) && t.To?
      ensures src in Keys(g.nodes) && t.name in Keys(g.nodes) && Pos(g, src) < Pos(g, t.name)
    {
      TopologyTargets(src);
      TopologyPos(src);
      TopologyPos(t.name);
      TargetsLater(src, t);
    }
  }

  /**
   * The topology is well formed, every router key has a branch, and every
   * edge points forward in declaration order: the graph is acyclic.
   */
  lemma TopologyIsForward()
    ensures WellFormed(Topology()) && Total(Topology()) && Forward(Topology())
    ensures |Topology().nodes| == 8
  {
    TopologyDistinct();
    TopologyTotal();
    TopologyForward();
  }

  /** The four data-branch nodes in a row: fetch, normalise, embed (no update), retrieve. */
  function Gathered(env: Env, s: State): State {
    var s3 := Merge(s, FetchData(s, env.feed));
    var s4 := Merge(s3, NormalizeUpdate(s3, env.now));
    var s5 := Merge(s4, Empty);
    Merge(s5, RetrieveContext(s5, env.store))
  }

  /** Reasoning then response generation, after the nodes in `trace`. */
  function Finish(env: Env, s: State, trace: seq<Name>): Outcome<Name> {
    match Analyze(s, env.analyst)
    case Fault(reason) => Outcome(s, trace + [ReasoningNode], Halted(NodeFault(ReasoningNode, reason)))
    case Ok(u) =>
      var s' := Merge(s, u);
      Outcome(Merge(s', Respond(s', env.formatter)), trace + [ReasoningNode, ResponseNode], Completed)
  }

  /**
   * The workflow written out by hand: parse, stop on a parse error, plan,
   * then either reason directly or gather data first, and respond.
   */
  function Pipeline(env: Env, s: State): Outcome<Name> {
    match ParseInput(s, env.chain)
    case Fault(reason) => Outcome(s, ParseOnlyPath, Halted(NodeFault(ParsingNode, reason)))
    case Ok(u) =>
      var s1 := Merge(s, u);
      if CheckParsingError(s1) == EndKey then Outcome(s1, ParseOnlyPath, Completed)
      else
        var s2 := Merge(s1, PlanQuery(s1));
        if RouteQuery(s2) == ReasonKey then Finish(env, s2, ReasonPath[..2])
        else Finish(env, Gathered(env, s2), FetchPath[..6])
  }

  /** The function registered under each name. */
  function FnOf(n: Name): NodeFn {
    match n
    case ParsingNode => ParseInputFn
    case PlannerNode => PlanQueryFn
    case FetchNode => FetchDataFn
    case NormalizationNode => NormalizeDataFn
    case EmbeddingNode => EmbedKnowledgeFn
    case RetrievalNode => RetrieveContextFn
    case ReasoningNode => AnalyzeMarketFn
    case ResponseNode => GenerateResponseFn
  }

  /** Where each node's edge leads, on the merged state `s`. */
  function NextOf(n: Name, s: State): Hop<Name> {
    match n
    case ParsingNode => if CheckParsingError(s) == EndKey then Go(End) else Go(To(PlannerNode))
    case PlannerNode => if RouteQuery(s) == FetchKey then Go(To(FetchNode)) else Go(To(ReasoningNode))
    case FetchNode => Go(To(NormalizationNode))
    case NormalizationNode => Go(To(EmbeddingNode))
    case EmbeddingNode => Go(To(RetrievalNode))
    case RetrievalNode => Go(To(ReasoningNode))
    case ReasoningNode => Go(To(ResponseNode))
    case ResponseNode => Go(End)
  }

  /** `g` registers the workflow's functions under their names and wires them as `build_graph` does. */
  ghost predicate Wired(g: Graph<Name>) {
    && (forall n :: Lookup(g.nodes, n) == Some(FnOf(n)))
    && (forall n, s :: Next(g, n, s) == NextOf(n, s))
  }

  lemma TopologyLookup(n: Name)
    ensures Lookup(Topology().nodes, n) == Some(FnOf(n))
  {
    TopologyDistinct();
    TopologyKeys();
    var nodes := Topology().nodes;
    assert nodes[Rank(n)] == (n, FnOf(n));
    LookupDistinct(nodes, Rank(n));
  }

  lemma TopologyNext(n: Name, s: State)
    ensures Next(Topology(), n, s) == NextOf(n, s)
  {
  }

  lemma TopologyWired()
    ensures Wired(Topology())
  {
    forall n: Name
      ensures Lookup(Topology().nodes, n) == Some(FnOf(n))
    {
      TopologyLookup(n);
    }
    forall n: Name, s: State
      ensures Next(Topology(), n, s) == NextOf(n, s)
    {
      TopologyNext(n, s);
    }
  }

  /*
   * One step of a run on a wired graph, for any executor: what the node
   * returns is a parameter, so these lemmas do not depend on the nodes'
   * definitions. The lemmas that chain them fix the executor to `Exec(env)`.
   */

  lemma FromResponse(g: Graph<Name>, exec: Executor, s: State, trace: seq<Name>, u: Update)
    requires Wired(g)
    requires |trace| < RecursionLimit
    requires exec(GenerateResponseFn, s) == Ok(u)
    ensures RunFrom(g, exec, ResponseNode, s, trace) == Outcome(Merge(s, u), trace + [ResponseNode], Completed)
  {
    assert Lookup(g.nodes, ResponseNode) == Some(GenerateResponseFn);
    assert Next(g, ResponseNode, Merge(s, u)) == Go(End);
    StepEnd(g, exec, ResponseNode, s, trace, GenerateResponseFn, u);
  }

  lemma AppendTwo(trace: seq<Name>, a: Name, b: Name)
    ensures trace + [a] + [b] == trace + [a, b]
  {
  }

  /** Analysis that returns an update leads on to the response, and the run completes. */
  lemma ReasoningAnswers(g: Graph<Name>, exec: Executor, s: State, trace: seq<Name>, u: Update, v: Update)
    requires Wired(g)
    requires |trace| < RecursionLimit - 1
    requires exec(AnalyzeMarketFn, s) == Ok(u)
    requires exec(GenerateResponseFn, Merge(s, u)) == Ok(v)
    ensures RunFrom(g, exec, ReasoningNode, s, trace) ==
      Outcome(Merge(Merge(s, u), v), trace + [ReasoningNode, ResponseNode], Completed)
  {
    var s' := Merge(s, u);
    assert Lookup(g.nodes, ReasoningNode) == Some(AnalyzeMarketFn);
    assert Next(g, ReasoningNode, s') == Go(To(ResponseNode));
    StepTo(g, exec, ReasoningNode, s, trace, AnalyzeMarketFn, u, ResponseNode);
    FromResponse(g, exec, s', trace + [ReasoningNode], v);
    AppendTwo(trace, ReasoningNode, ResponseNode);
  }

  /** Analysis that raises halts the run at the reasoning node. */
  lemma ReasoningRaises(g: Graph<Name>, exec: Executor, s: State, trace: seq<Name>, reason: string)
    requires Wired(g)
    requires |trace| < RecursionLimit
    requires exec(AnalyzeMarketFn, s) == Fault(reason)
    ensures RunFrom(g, exec, ReasoningNode, s, trace) ==
      Outcome(s, trace + [ReasoningNode], Halted(NodeFault(ReasoningNode, reason)))
  {
    assert Lookup(g.nodes, ReasoningNode) == Some(AnalyzeMarketFn);
    StepFault(g, exec, ReasoningNode, s, trace, AnalyzeMarketFn, reason);
  }

  lemma FromReasoning(g: Graph<Name>, env: Env, s: State, trace: seq<Name>)
    requires Wired(g)
    requires |trace| < RecursionLimit - 1
    ensures RunFrom(g, Exec(env), ReasoningNode, s, trace) == Finish(env, s, trace)
  {
    match Analyze(s, env.analyst)
    case Fault(reason) =>
      ReasoningRaises(g, Exec(env), s, trace, reason);
    case Ok(u) =>
      var s' := Merge(s, u);
      ReasoningAnswers(g, Exec(env), s, trace, u, Respond(s', env.formatter));
  }

  lemma FromRetrieval(g: Graph<Name>, exec: Executor, s: State, trace: seq<Name>, u: Update)
    requires Wired(g)
    requires |trace| < RecursionLimit
    requires exec(RetrieveContextFn, s) == Ok(u)
    ensures RunFrom(g, exec, RetrievalNode, s, trace) == RunFrom(g, exec, ReasoningNode, Merge(s, u), trace + [RetrievalNode])
  {
    assert Lookup(g.nodes, RetrievalNode) == Some(RetrieveContextFn);
    assert Next(g, RetrievalNode, Merge(s, u)) == Go(To(ReasoningNode));
    StepTo(g, exec, RetrievalNode, s, trace, RetrieveContextFn, u, ReasoningNode);
  }

  lemma FromEmbedding(g: Graph<Name>, exec: Executor, s: State, trace: seq<Name>, u: Update)
    requires Wired(g)
    requires |trace| < RecursionLimit
    requires exec(EmbedKnowledgeFn, s) == Ok(u)
    ensures RunFrom(g, exec, EmbeddingNode, s, trace) == RunFrom(g, exec, RetrievalNode, Merge(s, u), trace + [EmbeddingNode])
  {
    assert Lookup(g.nodes, EmbeddingNode) == Some(EmbedKnowledgeFn);
    assert Next(g, EmbeddingNode, Merge(s, u)) == Go(To(RetrievalNode));
    StepTo(g, exec, EmbeddingNode, s, trace, EmbedKnowledgeFn, u, RetrievalNode);
  }

  lemma FromNormalization(g: Graph<Name>, exec: Executor, s: State, trace: seq<Name>, u: Update)
    requires Wired(g)
    requires |trace| < RecursionLimit
    requires exec(NormalizeDataFn, s) == Ok(u)
    ensures RunFrom(g, exec, NormalizationNode, s, trace) == RunFrom(g, exec, EmbeddingNode, Merge(s, u), trace + [NormalizationNode])
  {
    assert Lookup(g.nodes, NormalizationNode) == Some(NormalizeDataFn);
    assert Next(g, NormalizationNode, Merge(s, u)) == Go(To(EmbeddingNode));
    StepTo(g, exec, NormalizationNode, s, trace, NormalizeDataFn, u, EmbeddingNode);
  }

  lemma FetchStep(g: Graph<Name>, exec: Executor, s: State, trace: seq<Name>, u: Update)
    requires Wired(g)
    requires |trace| < RecursionLimit
    requires exec(FetchDataFn, s) == Ok(u)
    ensures RunFrom(g, exec, FetchNode, s, trace) == RunFrom(g, exec, NormalizationNode, Merge(s, u), trace + [FetchNode])
  {
    assert Lookup(g.nodes, FetchNode) == Some(FetchDataFn);
    assert Next(g, FetchNode, Merge(s, u)) == Go(To(NormalizationNode));
    StepTo(g, exec, FetchNode, s, trace, FetchDataFn, u, NormalizationNode);
  }

  /** The four data nodes run one after another, each on the state the previous one left. */
  lemma DataChain(g: Graph<Name>, exec: Executor, s: State, trace: seq<Name>, u3: Update, u4: Update, u5: Update, u6: Update)
    requires Wired(g)
    requires |trace| < RecursionLimit - 5
    requires exec(FetchDataFn, s) == Ok(u3)
    requires exec(NormalizeDataFn, Merge(s, u3)) == Ok(u4)
    requires exec(EmbedKnowledgeFn, Merge(Merge(s, u3), u4)) == Ok(u5)
    requires exec(RetrieveContextFn, Merge(Merge(Merge(s, u3), u4), u5)) == Ok(u6)
    ensures RunFrom(g, exec, FetchNode, s, trace) ==
      RunFrom(g, exec, ReasoningNode, Merge(Merge(Merge(Merge(s, u3), u4), u5), u6),
        trace + [FetchNode] + [NormalizationNode] + [EmbeddingNode] + [RetrievalNode])
  {
    var s3 := Merge(s, u3);
    var s4 := Merge(s3, u4);
    var s5 := Merge(s4, u5);
    FetchStep(g, exec, s, trace, u3);
    FromNormalization(g, exec, s3, trace + [FetchNode], u4);
    FromEmbedding(g, exec, s4, trace + [FetchNode] + [NormalizationNode], u5);
    FromRetrieval(g, exec, s5, trace + [FetchNode] + [NormalizationNode] + [EmbeddingNode], u6);
  }

  lemma DataSteps(g: Graph<Name>, env: Env, s: State, trace: seq<Name>)
    requires Wired(g)
    requires |trace| < RecursionLimit - 5
    ensures RunFrom(g, Exec(env), FetchNode, s, trace) ==
      RunFrom(g, Exec(env), ReasoningNode, Gathered(env, s), trace + [FetchNode] + [NormalizationNode] + [EmbeddingNode] + [RetrievalNode])
  {
    var s3 := Merge(s, FetchData(s, env.feed));
    var s4 := Merge(s3, NormalizeUpdate(s3, env.now));
    var s5 := Merge(s4, Empty);
    DataChain(g, Exec(env), s, trace, FetchData(s, env.feed), NormalizeUpdate(s3, env.now), Empty, RetrieveContext(s5, env.store));
  }

  lemma FromFetch(g: Graph<Name>, env: Env, s: State, trace: seq<Name>)
    requires Wired(g)
    requires |trace| < RecursionLimit - 5
    ensures RunFrom(g, Exec(env), FetchNode, s, trace) ==
      Finish(env, Gathered(env, s), trace + [FetchNode] + [NormalizationNode] + [EmbeddingNode] + [RetrievalNode])
  {
    DataSteps(g, env, s, trace);
    FromReasoning(g, env, Gathered(env, s), trace + [FetchNode] + [NormalizationNode] + [EmbeddingNode] + [RetrievalNode]);
  }

  /** The planner changes nothing, and `route_query` on the unchanged state picks the branch. */
  lemma PlannerStep(g: Graph<Name>, exec: Executor, s: State, trace: seq<Name>)
    requires Wired(g)
    requires |trace| < RecursionLimit
    requires exec(PlanQueryFn, s) == Ok(Empty)
    ensures RunFrom(g, exec, PlannerNode, s, trace) ==
      RunFrom(g, exec, if RouteQuery(s) == ReasonKey then ReasoningNode else FetchNode, s, trace + [PlannerNode])
  {
    MergeEmpty(s);
    assert Lookup(g.nodes, PlannerNode) == Some(PlanQueryFn);
    var n := if RouteQuery(s) == ReasonKey then ReasoningNode else FetchNode;
    assert Next(g, PlannerNode, s) == Go(To(n));
    StepTo(g, exec, PlannerNode, s, trace, PlanQueryFn, Empty, n);
  }

  lemma FromPlanner(g: Graph<Name>, env: Env, s: State, trace: seq<Name>)
    requires Wired(g)
    requires |trace| < RecursionLimit - 6
    ensures RunFrom(g, Exec(env), PlannerNode, s, trace) ==
      if RouteQuery(s) == ReasonKey then Finish(env, s, trace + [PlannerNode])
      else Finish(env, Gathered(env, s), trace + [PlannerNode] + [FetchNode] + [NormalizationNode] + [EmbeddingNode] + [RetrievalNode])
  {
    assert PlanQuery(s) == Empty;
    PlannerStep(g, Exec(env), s, trace);
    if RouteQuery(s) == ReasonKey {
      FromReasoning(g, env, s, trace + [PlannerNode]);
    } else {
      FromFetch(g, env, s, trace + [PlannerNode]);
    }
  }

  /** The first step when parsing raises: the run halts at the parser. */
  lemma ParsingFault(g: Graph<Name>, exec: Executor, s: State, reason: string)
    requires Wired(g)
    requires exec(ParseInputFn, s) == Fault(reason)
    ensures RunFrom(g, exec, ParsingNode, s, []) == Outcome(s, ParseOnlyPath, Halted(NodeFault(ParsingNode, reason)))
  {
    assert Lookup(g.nodes, ParsingNode) == Some(ParseInputFn);
    StepFault(g, exec, ParsingNode, s, [], ParseInputFn, reason);
    assert [] + [ParsingNode] == ParseOnlyPath;
  }

  /** The first step when parsing wrote an error: `check_parsing_error` ends the run. */
  lemma ParsingEnd(g: Graph<Name>, exec: Executor, s: State, u: Update)
    requires Wired(g)
    requires exec(ParseInputFn, s) == Ok(u)
    requires CheckParsingError(Merge(s, u)) == EndKey
    ensures RunFrom(g, exec, ParsingNode, s, []) == Outcome(Merge(s, u), ParseOnlyPath, Completed)
  {
    assert Lookup(g.nodes, ParsingNode) == Some(ParseInputFn);
    assert Next(g, ParsingNode, Merge(s, u)) == Go(End);
    StepEnd(g, exec, ParsingNode, s, [], ParseInputFn, u);
    assert [] + [ParsingNode] == ParseOnlyPath;
  }

  /** The first step otherwise: on to the planner. */
  lemma ParsingContinue(g: Graph<Name>, exec: Executor, s: State, u: Update)
    requires Wired(g)
    requires exec(ParseInputFn, s) == Ok(u)
    requires CheckParsingError(Merge(s, u)) != EndKey
    ensures RunFrom(g, exec, ParsingNode, s, []) == RunFrom(g, exec, PlannerNode, Merge(s, u), ParseOnlyPath)
  {
    assert Lookup(g.nodes, ParsingNode) == Some(ParseInputFn);
    assert Next(g, ParsingNode, Merge(s, u)) == Go(To(PlannerNode));
    StepTo(g, exec, ParsingNode, s, [], ParseInputFn, u, PlannerNode);
    assert [] + [ParsingNode] == ParseOnlyPath;
  }

  /** The traces the pipeline extends after the planner, on each branch. */
  lemma PathPrefixes()
    ensures ParseOnlyPath + [PlannerNode] == ReasonPath[..2]
    ensures ParseOnlyPath + [PlannerNode] + [FetchNode] + [NormalizationNode] + [EmbeddingNode] + [RetrievalNode] == FetchPath[..6]
  {
  }

  /** On any graph wired like the topology, a run is the hand-written pipeline. */
  lemma WiredRunIsPipeline(g: Graph<Name>, env: Env, s: State)
    requires Wired(g)
    requires g.entry == ParsingNode
    ensures Run(g, Exec(env), s) == Pipeline(env, s)
  {
    var r := ParseInput(s, env.chain);
    if r.Fault? {
      ParsingFault(g, Exec(env), s, r.reason);
    } else {
      var s1 := Merge(s, r.update);
      if CheckParsingError(s1) == EndKey {
        ParsingEnd(g, Exec(env), s, r.update);
      } else {
        ParsingContinue(g, Exec(env), s, r.update);
        FromPlanner(g, env, s1, ParseOnlyPath);
        assert PlanQuery(s1) == Empty;
        MergeEmpty(s1);
        PathPrefixes();
      }
    }
  }

  /** Running the compiled topology is exactly the hand-written pipeline. */
  lemma RunIsPipeline(env: Env, s: State)
    ensures Run(Topology(), Exec(env), s) == Pipeline(env, s)
  {
    TopologyWired();
    WiredRunIsPipeline(Topology(), env, s);
  }
}
