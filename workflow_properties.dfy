/**
 * What every invocation of the compiled workflow (agent/graph.py) does:
 * the node paths it can take, where it stops, and which state it ends in.
 * Each property is stated about `Run(Topology(), ...)` and proved through
 * the hand-written pipeline it equals.
 */
module WorkflowProperties {
  import opened Wrappers
  import opened AgentState
  import opened Models
  import opened InputParsing
  import opened QueryPlanner
  import DataFetch
  import DataNormalization
  import Retrieval
  import Reasoning
  import opened ResponseGeneration
  import opened Routing
  import opened Nodes
  import opened Runtime
  import opened Workflow

  /** The parser's update, when it returned one. */
  function Parsed(env: Env, s: State): Update
    requires s.messages != []
  {
    ParseInput(s, env.chain).update
  }

  /** Whether the run goes past the halt check: parsing returned and left no truthy `error`. */
  predicate Continues(env: Env, s: State) {
    s.messages != [] && !HasError(Merge(s, Parsed(env, s)))
  }

  /**
   * A parse that writes `error` sends the run straight to END: no other
   * node executes and the final `error` is the one the parser wrote.
   */
  lemma ParseErrorEndsRun(env: Env, s: State)
    requires s.messages != [] && Parsed(env, s).error.Some?
    ensures var o := Run(Topology(), Exec(env), s);
      && o.trace == ParseOnlyPath
      && o.status == Completed
      && o.state == Merge(s, Parsed(env, s))
      && o.state.error == Parsed(env, s).error
  {
    RunIsPipeline(env, s);
    ParseErrorIsTruthy(s, env.chain);
    assert Writes(Parsed(env, s), Error);
  }

  /** Past the halt check the state always holds the parsed query. */
  lemma ContinueHasQuery(env: Env, s: State)
    requires Continues(env, s)
    ensures Parsed(env, s).parsedQuery.Some?
    ensures Merge(s, Parsed(env, s)).parsedQuery == Parsed(env, s).parsedQuery
  {
    var u := Parsed(env, s);
    if Written(u) == {Error} {
      assert Writes(u, Error);
      ParseErrorIsTruthy(s, env.chain);
      assert false;
    }
    assert Writes(u, ParsedQuery);
  }

  /** Past the halt check, the planner leaves the state as parsing left it and the router picks the branch. */
  lemma PipelineContinues(env: Env, s: State)
    requires Continues(env, s)
    ensures var s1 := Merge(s, Parsed(env, s));
      Pipeline(env, s) ==
        if RouteQuery(s1) == ReasonKey then Finish(env, s1, ReasonPath[..2])
        else Finish(env, Gathered(env, s1), FetchPath[..6])
  {
    var s1 := Merge(s, Parsed(env, s));
    assert PlanQuery(s1) == Empty;
    MergeEmpty(s1);
  }

  /** Reasoning then response: the run halts exactly when the analyst LLM raises. */
  lemma FinishShape(env: Env, x: State, trace: seq<Name>)
    ensures var o := Finish(env, x, trace);
      && o.trace == (if Reasoning.Analyze(x, env.analyst).Fault? then trace + [ReasoningNode] else trace + [ReasoningNode, ResponseNode])
      && (o.status.Completed? <==> Reasoning.Analyze(x, env.analyst).Ok?)
      && (o.status.Halted? ==> o.status.halt == NodeFault(ReasoningNode, Reasoning.Analyze(x, env.analyst).reason))
  {
  }

  lemma BranchPaths()
    ensures ReasonPath[..2] + [ReasoningNode] == ReasonPath[..3]
    ensures ReasonPath[..2] + [ReasoningNode, ResponseNode] == ReasonPath
    ensures FetchPath[..6] + [ReasoningNode] == FetchPath[..7]
    ensures FetchPath[..6] + [ReasoningNode, ResponseNode] == FetchPath
    ensures forall n :: n in DataNodes ==> n !in ReasonPath
  {
  }

  /**
   * The knowledge branch: parsing, planning, reasoning and response
   * generation, never a data node; the run halts only when the analyst
   * LLM raises.
   */
  lemma ReasonBranch(env: Env, s: State)
    requires Continues(env, s)
    requires RouteQuery(Merge(s, Parsed(env, s))) == ReasonKey
    ensures var s1 := Merge(s, Parsed(env, s));
      var o := Run(Topology(), Exec(env), s);
      && o.trace == (if Reasoning.Analyze(s1, env.analyst).Fault? then ReasonPath[..3] else ReasonPath)
      && (o.status.Completed? <==> Reasoning.Analyze(s1, env.analyst).Ok?)
      && (o.status.Halted? ==> o.status.halt.NodeFault? && o.status.halt.node == ReasoningNode)
      && (forall n :: n in DataNodes ==> n !in o.trace)
  {
    RunIsPipeline(env, s);
    PipelineContinues(env, s);
    var s1 := Merge(s, Parsed(env, s));
    FinishShape(env, s1, ReasonPath[..2]);
    BranchPaths();
    var o := Run(Topology(), Exec(env), s);
    assert o.trace <= ReasonPath;
    forall n | n in DataNodes
      ensures n !in o.trace
    {
      assert n !in ReasonPath;
    }
  }

  /**
   * The data branch: fetch, normalise, embed and retrieve, in that order,
   * before reasoning and response generation; the run halts only when the
   * analyst LLM raises.
   */
  lemma FetchBranch(env: Env, s: State)
    requires Continues(env, s)
    requires RouteQuery(Merge(s, Parsed(env, s))) == FetchKey
    ensures var s1 := Merge(s, Parsed(env, s));
      var o := Run(Topology(), Exec(env), s);
      && o.trace == (if Reasoning.Analyze(Gathered(env, s1), env.analyst).Fault? then FetchPath[..7] else FetchPath)
      && (o.status.Completed? <==> Reasoning.Analyze(Gathered(env, s1), env.analyst).Ok?)
      && (o.status.Halted? ==> o.status.halt.NodeFault? && o.status.halt.node == ReasoningNode)
  {
    RunIsPipeline(env, s);
    PipelineContinues(env, s);
    var s1 := Merge(s, Parsed(env, s));
    FinishShape(env, Gathered(env, s1), FetchPath[..6]);
    BranchPaths();
  }

  /** The three complete paths, and the paths of a run a node's fault cut short. */
  function CompletePaths(): set<seq<Name>> {
    {ParseOnlyPath, ReasonPath, FetchPath}
  }

  function FaultPaths(): set<seq<Name>> {
    {ParseOnlyPath, ReasonPath[..3], FetchPath[..7]}
  }

  /**
   * Every run executes 1, 4 or 8 nodes along one of the three paths and
   * reaches END, unless the parser faults on an empty conversation or the
   * analyst LLM raises; no node runs twice and the recursion limit is never
   * reached.
   */
  lemma Paths(env: Env, s: State)
    ensures var o := Run(Topology(), Exec(env), s);
      && (o.status.Completed? ==> o.trace in CompletePaths() && |o.trace| in {1, 4, 8})
      && (o.status.Halted? ==> o.status.halt.NodeFault? && o.trace in FaultPaths())
      && (o.status.Halted? && o.trace == ParseOnlyPath <==> s.messages == [])
      && NoRepeats(o.trace)
  {
    RunNoRepeats(env, s);
    if !Continues(env, s) {
      StopPath(env, s);
    } else if RouteQuery(Merge(s, Parsed(env, s))) == ReasonKey {
      ReasonPathShape(env, s);
    } else {
      FetchPathShape(env, s);
    }
  }

  /** The shape `Paths` promises, apart from the absence of repeats. */
  ghost predicate OnAPath(s: State, o: Outcome<Name>) {
    && (o.status.Completed? ==> o.trace in CompletePaths() && |o.trace| in {1, 4, 8})
    && (o.status.Halted? ==> o.status.halt.NodeFault? && o.trace in FaultPaths())
    && (o.status.Halted? && o.trace == ParseOnlyPath <==> s.messages == [])
  }

  lemma PathLengths()
    ensures |ParseOnlyPath| == 1 && |ReasonPath[..3]| == 3 && |ReasonPath| == 4
    ensures |FetchPath[..7]| == 7 && |FetchPath| == 8
  {
  }

  lemma StopPath(env: Env, s: State)
    requires !Continues(env, s)
    ensures OnAPath(s, Run(Topology(), Exec(env), s))
  {
    HaltCheckStops(env, s);
  }

  lemma ReasonPathShape(env: Env, s: State)
    requires Continues(env, s)
    requires RouteQuery(Merge(s, Parsed(env, s))) == ReasonKey
    ensures OnAPath(s, Run(Topology(), Exec(env), s))
  {
    ReasonBranch(env, s);
    PathLengths();
  }

  lemma FetchPathShape(env: Env, s: State)
    requires Continues(env, s)
    requires RouteQuery(Merge(s, Parsed(env, s))) == FetchKey
    ensures OnAPath(s, Run(Topology(), Exec(env), s))
  {
    FetchBranch(env, s);
    PathLengths();
  }

  /** A run that does not get past the halt check executes only the parser; it faults only on an empty conversation. */
  lemma HaltCheckStops(env: Env, s: State)
    requires !Continues(env, s)
    ensures var o := Run(Topology(), Exec(env), s);
      && o.trace == ParseOnlyPath
      && (o.status.Halted? <==> s.messages == [])
      && (o.status.Halted? ==> o.status.halt.NodeFault?)
  {
    RunIsPipeline(env, s);
  }

  /** No node runs twice, since the topology is acyclic. */
  lemma RunNoRepeats(env: Env, s: State)
    ensures NoRepeats(Run(Topology(), Exec(env), s).trace)
  {
    TopologyIsForward();
    ForwardRun(Topology(), Exec(env), s);
  }

  /** Two states that differ at most in `error`. */
  predicate SameButError(a: State, b: State) {
    a.(error := b.error) == b
  }

  lemma MergeSameButError(a: State, b: State, u: Update)
    requires SameButError(a, b)
    ensures SameButError(Merge(a, u), Merge(b, u))
  {
  }

  /** No data node reads `error`. */
  lemma GatheredIgnoresError(env: Env, a: State, b: State)
    requires SameButError(a, b)
    ensures SameButError(Gathered(env, a), Gathered(env, b))
  {
    assert DataFetch.FetchData(a, env.feed) == DataFetch.FetchData(b, env.feed);
    var a3, b3 := Merge(a, DataFetch.FetchData(a, env.feed)), Merge(b, DataFetch.FetchData(b, env.feed));
    MergeSameButError(a, b, DataFetch.FetchData(a, env.feed));
    assert DataNormalization.NormalizeUpdate(a3, env.now) == DataNormalization.NormalizeUpdate(b3, env.now);
    var a4, b4 := Merge(a3, DataNormalization.NormalizeUpdate(a3, env.now)), Merge(b3, DataNormalization.NormalizeUpdate(b3, env.now));
    MergeSameButError(a3, b3, DataNormalization.NormalizeUpdate(a3, env.now));
    MergeEmpty(a4);
    MergeEmpty(b4);
    assert Retrieval.RetrieveContext(a4, env.store) == Retrieval.RetrieveContext(b4, env.store);
    MergeSameButError(a4, b4, Retrieval.RetrieveContext(a4, env.store));
  }

  /** Neither reasoning nor response generation reads `error`, so neither decides the path by it. */
  lemma FinishIgnoresError(env: Env, a: State, b: State, trace: seq<Name>)
    requires SameButError(a, b)
    ensures Finish(env, a, trace).trace == Finish(env, b, trace).trace
    ensures Finish(env, a, trace).status == Finish(env, b, trace).status
  {
    assert Reasoning.Analyze(a, env.analyst) == Reasoning.Analyze(b, env.analyst);
  }

  /**
   * `error` is inspected only by the halt check after parsing: once past
   * it, whatever `error` holds (set by the seed, by `data_fetch` or by any
   * later node) the run takes the same nodes and ends the same way.
   */
  lemma ErrorReadOnlyOnce(env: Env, s: State, e: Option<string>)
    ensures var a := RunFrom(Topology(), Exec(env), PlannerNode, s, ParseOnlyPath);
      var b := RunFrom(Topology(), Exec(env), PlannerNode, s.(error := e), ParseOnlyPath);
      a.trace == b.trace && a.status == b.status
  {
    var t := s.(error := e);
    TopologyWired();
    FromPlanner(Topology(), env, s, ParseOnlyPath);
    FromPlanner(Topology(), env, t, ParseOnlyPath);
    RouteQueryReadsQuery(s, t);
    if RouteQuery(s) == ReasonKey {
      FinishIgnoresError(env, s, t, ParseOnlyPath + [PlannerNode]);
    } else {
      GatheredIgnoresError(env, s, t);
      FinishIgnoresError(env, Gathered(env, s), Gathered(env, t),
        ParseOnlyPath + [PlannerNode] + [FetchNode] + [NormalizationNode] + [EmbeddingNode] + [RetrievalNode]);
    }
  }

  /** Without a parsed query the data nodes leave the query and the analysis absent. */
  lemma GatheredNoQuery(env: Env, s: State)
    requires s.parsedQuery.None? && s.analysisResult.None?
    ensures Gathered(env, s).parsedQuery.None? && Gathered(env, s).analysisResult.None?
  {
    var s3 := Merge(s, DataFetch.FetchData(s, env.feed));
    var s4 := Merge(s3, DataNormalization.NormalizeUpdate(s3, env.now));
    MergeEmpty(s4);
    assert Retrieval.RetrieveContext(s4, env.store) == Empty;
  }

  /**
   * Reaching `data_fetch` without a parsed query (possible only on a graph
   * entered there, since parsing always supplies one): the fetch writes its
   * error and the run still goes to END through the static edges, with
   * reasoning's error last and the fixed "no analysis" answer.
   */
  lemma MissingQueryStillCompletes(env: Env, s: State)
    requires s.parsedQuery.None? && s.analysisResult.None?
    ensures var o := RunFrom(Topology(), Exec(env), FetchNode, s, []);
      && o.trace == FetchPath[2..]
      && o.status == Completed
      && o.state.error == Some(Reasoning.NoQueryError)
      && o.state.finalResponse == Some(Text(NoAnalysis))
  {
    TopologyWired();
    FromFetch(Topology(), env, s, []);
    GatheredNoQuery(env, s);
    FinishNoQuery(env, Gathered(env, s), [] + [FetchNode] + [NormalizationNode] + [EmbeddingNode] + [RetrievalNode]);
    DataPath();
  }

  /** Reasoning without a query writes its error, and response generation its fixed answer. */
  lemma FinishNoQuery(env: Env, x: State, trace: seq<Name>)
    requires x.parsedQuery.None? && x.analysisResult.None?
    ensures var o := Finish(env, x, trace);
      && o.trace == trace + [ReasoningNode, ResponseNode]
      && o.status == Completed
      && o.state.error == Some(Reasoning.NoQueryError)
      && o.state.finalResponse == Some(Text(NoAnalysis))
  {
    var x' := Merge(x, Update(error := Some(Reasoning.NoQueryError)));
    assert Respond(x', env.formatter) == Update(finalResponse := Some(Text(NoAnalysis)));
  }

  lemma DataPath()
    ensures [] + [FetchNode] + [NormalizationNode] + [EmbeddingNode] + [RetrievalNode] + [ReasoningNode, ResponseNode] == FetchPath[2..]
  {
  }

  /**
   * A formatter failure in `response_generation` sets `error` but the run
   * still completes, with the prefixed message as the response.
   */
  lemma FormatterErrorStillCompletes(env: Env, s: State, trace: seq<Name>)
    requires |trace| < RecursionLimit
    requires s.analysisResult.Some? && s.analysisResult.value != map[]
    requires !(s.parsedQuery.Some? && s.parsedQuery.value.intent == GeneralChat)
    requires env.formatter(AnalysisText(s.analysisResult.value), s.normalizedMetrics.GetOr([])).FormatRaised?
    ensures var e := env.formatter(AnalysisText(s.analysisResult.value), s.normalizedMetrics.GetOr([])).message;
      var o := RunFrom(Topology(), Exec(env), ResponseNode, s, trace);
      && o.status == Completed
      && o.trace == trace + [ResponseNode]
      && o.state.error == Some(e)
      && o.state.finalResponse == Some(Text(FormatErrorPrefix + e))
  {
    TopologyWired();
    FromResponse(Topology(), Exec(env), s, trace, Respond(s, env.formatter));
  }

  /** Every run that gets past the halt check and completes has written `final_response`. */
  lemma CompletedRunsRespond(env: Env, s: State)
    ensures var o := Run(Topology(), Exec(env), s);
      o.status.Completed? && o.trace != ParseOnlyPath ==> o.state.finalResponse.Some?
  {
    RunIsPipeline(env, s);
    var o := Run(Topology(), Exec(env), s);
    if s.messages != [] && Continues(env, s) {
      var s1 := Merge(s, Parsed(env, s));
      assert PlanQuery(s1) == Empty;
      MergeEmpty(s1);
      var x := if RouteQuery(s1) == ReasonKey then s1 else Gathered(env, s1);
      match Reasoning.Analyze(x, env.analyst)
      case Fault(_) =>
      case Ok(u) =>
        var x' := Merge(x, u);
        assert Writes(Respond(x', env.formatter), FinalResponse);
    }
  }

  /** A conversation with no messages faults in the parser: `messages[-1]` raises. */
  lemma EmptyConversationFaults(env: Env)
    ensures Run(Topology(), Exec(env), Seed([])) ==
      Outcome(Seed([]), ParseOnlyPath, Halted(NodeFault(ParsingNode, EmptyMessagesFault)))
  {
    RunIsPipeline(env, Seed([]));
  }
}
