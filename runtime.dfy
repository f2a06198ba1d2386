/**
 * The part of LangGraph that `build_graph` (agent/graph.py) relies on: a
 * `StateGraph` builder, the compiled graph it yields, and the sequential
 * semantics of `invoke` on a graph without fan-out — run the current node,
 * merge its update into the state, follow the node's edge (asking the
 * router on the merged state for a conditional edge), until `END`. A run
 * sees the nodes only through an `Executor`; `Invoke` executes them against
 * the services of an `Env`.
 */
module Runtime {
  import opened Wrappers
  import opened PyData
  import opened AgentState
  import opened Routing
  import opened Nodes

  /** LangGraph's default `recursion_limit`: the most node steps one run may take. */
  const RecursionLimit: nat := 25

  /** Where an edge leads: a node, named by the workflow's own identifiers `N`, or END. */
  datatype Target<N> = To(name: N) | End

  /** A node's outgoing edge: a fixed target, or a router with its branch map. */
  datatype Edge<N> = Static(target: Target<N>) | Conditional(router: Router, branches: map<string, Target<N>>)

  /** A compiled graph: the nodes in declaration order, the entry node, one edge per source. */
  datatype Graph<N> = Graph(nodes: Table<N, NodeFn>, entry: N, edges: map<N, Edge<N>>)

  /** The targets an edge can lead to. */
  function Targets<N(==)>(e: Edge<N>): (ts: set<Target<N>>)
    ensures e.Static? ==> ts == {e.target}
  {
    match e
    case Static(t) => {t}
    case Conditional(_, branches) => branches.Values
  }

  /** What `compile` validates: the entry and every edge's source and target are declared nodes. */
  predicate Closed<N(==)>(nodes: Table<N, NodeFn>, entry: N, edges: map<N, Edge<N>>) {
    && entry in Keys(nodes)
    && (forall src :: src in edges ==> src in Keys(nodes))
    && (forall src, t :: src in edges && t in Targets(edges[src]) && t.To? ==> t.name in Keys(nodes))
  }

  ghost predicate WellFormed<N>(g: Graph<N>) {
    DistinctKeys(g.nodes) && Closed(g.nodes, g.entry, g.edges)
  }

  /** Every key a router can return has a branch, so routing never fails. */
  ghost predicate Total<N>(g: Graph<N>) {
    forall src :: src in g.edges && g.edges[src].Conditional? ==>
      Range(g.edges[src].router) <= g.edges[src].branches.Keys
  }

  /** The position of `k` in `ks`: its first occurrence. */
  function IndexOf<N(==)>(ks: seq<N>, k: N): (i: nat)
    requires k in ks
    ensures i < |ks| && ks[i] == k && k !in ks[..i]
  {
    if ks[0] == k then 0 else 1 + IndexOf(ks[1..], k)
  }

  /** The declaration position of node `n`. */
  function Pos<N(==)>(g: Graph<N>, n: N): nat
    requires n in Keys(g.nodes)
  {
    IndexOf(Keys(g.nodes), n)
  }

  /**
   * Acyclicity witnessed by declaration order: every edge leads to END or
   * to a node declared later than its source.
   */
  ghost predicate Forward<N>(g: Graph<N>) {
    forall src, t :: src in g.edges && t in Targets(g.edges[src]) && t.To? ==>
      src in Keys(g.nodes) && t.name in Keys(g.nodes) && Pos(g, src) < Pos(g, t.name)
  }

  /** `workflow = StateGraph(AgentState)` and the builder calls on it. */
  class StateGraph<N(==)> {
    var nodes: Table<N, NodeFn>
    var entry: Option<N>
    var edges: map<N, Edge<N>>

    ghost predicate Valid()
      reads this
    {
      DistinctKeys(nodes)
    }

    constructor ()
      ensures Valid()
      ensures nodes == [] && entry == None && edges == map[]
    {
      nodes, entry, edges := [], None, map[];
    }

    /** `add_node`: a name already present is refused. */
    method AddNode(name: N, fn: NodeFn) returns (added: bool)
      requires Valid()
      modifies this
      ensures Valid()
      ensures added <==> name !in Keys(old(nodes))
      ensures nodes == if added then old(nodes) + [(name, fn)] else old(nodes)
      ensures entry == old(entry) && edges == old(edges)
    {
      added := name !in Keys(nodes);
      if added {
        ghost var ks := Keys(nodes);
        nodes := nodes + [(name, fn)];
        assert forall i :: 0 <= i < |ks| ==> nodes[i].0 == ks[i];
      }
    }

    /** `set_entry_point`. */
    method SetEntryPoint(name: N)
      requires Valid()
      modifies this
      ensures Valid()
      ensures entry == Some(name)
      ensures nodes == old(nodes) && edges == old(edges)
    {
      entry := Some(name);
    }

    /** `add_edge`; a second edge out of the same node (fan-out) is refused. */
    method AddEdge(src: N, dst: Target<N>) returns (added: bool)
      requires Valid()
      modifies this
      ensures Valid()
      ensures added <==> src !in old(edges)
      ensures edges == if added then old(edges)[src := Static(dst)] else old(edges)
      ensures nodes == old(nodes) && entry == old(entry)
    {
      added := src !in edges;
      if added {
        edges := edges[src := Static(dst)];
      }
    }

    /** `add_conditional_edges` with a branch map; refused like a second edge. */
    method AddConditionalEdges(src: N, router: Router, branches: map<string, Target<N>>) returns (added: bool)
      requires Valid()
      modifies this
      ensures Valid()
      ensures added <==> src !in old(edges)
      ensures edges == if added then old(edges)[src := Conditional(router, branches)] else old(edges)
      ensures nodes == old(nodes) && entry == old(entry)
    {
      added := src !in edges;
      if added {
        edges := edges[src := Conditional(router, branches)];
      }
    }

    /** `compile`: the graph, or nothing when the entry is unset or an edge names an unknown node. */
    method Compile() returns (g: Option<Graph<N>>)
      requires Valid()
      ensures g.Some? <==> entry.Some? && Closed(nodes, entry.value, edges)
      ensures g.Some? ==> g.value == Graph(nodes, entry.value, edges) && WellFormed(g.value)
    {
      if entry.Some? && Closed(nodes, entry.value, edges) {
        g := Some(Graph(nodes, entry.value, edges));
      } else {
        g := None;
      }
    }
  }

  /** Why a run stopped before reaching END. */
  datatype Halt<N> =
    | NodeFault(node: N, reason: string)
    | UnknownNode(name: N)
    | UnknownBranch(node: N, key: string)
    | RecursionLimitReached

  datatype Status<N> = Completed | Halted(halt: Halt<N>)

  /** The final state, the nodes executed in order, and how the run ended. */
  datatype Outcome<N> = Outcome(state: State, trace: seq<N>, status: Status<N>)

  /** Where control goes after a node: a target, or a router key without a branch. */
  datatype Hop<N> = Go(target: Target<N>) | NoBranch(key: string)

  /** The edge out of `node`, resolved on the merged state; no edge ends the run. */
  function Next<N(==)>(g: Graph<N>, node: N, s: State): (h: Hop<N>)
    ensures h.Go? && h.target.To? ==> node in g.edges && h.target in Targets(g.edges[node])
    ensures h.NoBranch? ==>
      && node in g.edges && g.edges[node].Conditional?
      && h.key in Range(g.edges[node].router) && h.key !in g.edges[node].branches
  {
    if node !in g.edges then Go(End)
    else
      match g.edges[node]
      case Static(t) => Go(t)
      case Conditional(router, branches) =>
        var key := Route(router, s);
        RouteInRange(router, s);
        if key in branches then Go(branches[key]) else NoBranch(key)
  }

  /**
   * The run from `node` with state `s`, after the nodes in `trace`: the
   * trace only grows, and never beyond the recursion limit.
   */
  function RunFrom<N(==)>(g: Graph<N>, exec: Executor, node: N, s: State, trace: seq<N>): (o: Outcome<N>)
    ensures trace <= o.trace
    ensures |trace| <= RecursionLimit ==> |o.trace| <= RecursionLimit
    ensures o.status == Halted(RecursionLimitReached) ==> |o.trace| == RecursionLimit || |trace| > RecursionLimit
    decreases RecursionLimit - |trace|
  {
    if |trace| >= RecursionLimit then Outcome(s, trace, Halted(RecursionLimitReached))
    else
      match Lookup(g.nodes, node)
      case None => Outcome(s, trace, Halted(UnknownNode(node)))
      case Some(fn) =>
        match exec(fn, s)
        case Fault(reason) => Outcome(s, trace + [node], Halted(NodeFault(node, reason)))
        case Ok(u) =>
          var s' := Merge(s, u);
          match Next(g, node, s')
          case NoBranch(key) => Outcome(s', trace + [node], Halted(UnknownBranch(node, key)))
          case Go(End) => Outcome(s', trace + [node], Completed)
          case Go(To(n)) => RunFrom(g, exec, n, s', trace + [node])
  }

  /** `graph.invoke(input)`. */
  function Run<N(==)>(g: Graph<N>, exec: Executor, input: State): Outcome<N> {
    RunFrom(g, exec, g.entry, input, [])
  }

  /** `invoke` as a loop over the current node, the state and the trace. */
  method Invoke<N(==)>(g: Graph<N>, env: Env, input: State) returns (o: Outcome<N>)
    ensures o == Run(g, Exec(env), input)
  {
    var node := g.entry;
    var s := input;
    var trace: seq<N> := [];
    while |trace| < RecursionLimit
      invariant RunFrom(g, Exec(env), node, s, trace) == Run(g, Exec(env), input)
      decreases RecursionLimit - |trace|
    {
      var fn := Lookup(g.nodes, node);
      if fn.None? {
        return Outcome(s, trace, Halted(UnknownNode(node)));
      }
      var r := Execute(fn.value, s, env);
      if r.Fault? {
        return Outcome(s, trace + [node], Halted(NodeFault(node, r.reason)));
      }
      s := Merge(s, r.update);
      var hop := Next(g, node, s);
      trace := trace + [node];
      if hop.NoBranch? {
        return Outcome(s, trace, Halted(UnknownBranch(node, hop.key)));
      }
      if hop.target.End? {
        return Outcome(s, trace, Completed);
      }
      node := hop.target.name;
    }
    return Outcome(s, trace, Halted(RecursionLimitReached));
  }

  /** One step of a run: the node returns an update and its edge leads on to node `n`. */
  lemma StepTo<N>(g: Graph<N>, exec: Executor, node: N, s: State, trace: seq<N>, fn: NodeFn, u: Update, n: N)
    requires |trace| < RecursionLimit
    requires Lookup(g.nodes, node) == Some(fn)
    requires exec(fn, s) == Ok(u)
    requires Next(g, node, Merge(s, u)) == Go(To(n))
    ensures RunFrom(g, exec, node, s, trace) == RunFrom(g, exec, n, Merge(s, u), trace + [node])
  {
  }

  /** The last step of a run: the node returns an update and its edge leads to END. */
  lemma StepEnd<N>(g: Graph<N>, exec: Executor, node: N, s: State, trace: seq<N>, fn: NodeFn, u: Update)
    requires |trace| < RecursionLimit
    requires Lookup(g.nodes, node) == Some(fn)
    requires exec(fn, s) == Ok(u)
    requires Next(g, node, Merge(s, u)) == Go(End)
    ensures RunFrom(g, exec, node, s, trace) == Outcome(Merge(s, u), trace + [node], Completed)
  {
  }

  /** Node positions strictly increase along `trace`. */
  ghost predicate Increasing<N>(g: Graph<N>, trace: seq<N>) {
    && (forall i :: 0 <= i < |trace| ==> trace[i] in Keys(g.nodes))
    && (forall i, j :: 0 <= i < j < |trace| ==> Pos(g, trace[i]) < Pos(g, trace[j]))
  }

  predicate NoRepeats<N(==)>(trace: seq<N>) {
    forall i, j :: 0 <= i < j < |trace| ==> trace[i] != trace[j]
  }

  lemma IncreasingNoRepeats<N>(g: Graph<N>, trace: seq<N>)
    requires Increasing(g, trace)
    ensures NoRepeats(trace)
  {
    forall i, j | 0 <= i < j < |trace|
      ensures trace[i] != trace[j]
    {
      assert Pos(g, trace[i]) < Pos(g, trace[j]);
    }
  }

  /** Appending a node declared after every node of the trace keeps it increasing. */
  lemma ExtendIncreasing<N>(g: Graph<N>, trace: seq<N>, node: N)
    requires node in Keys(g.nodes)
    requires Increasing(g, trace)
    requires forall i :: 0 <= i < |trace| ==> Pos(g, trace[i]) < Pos(g, node)
    ensures Increasing(g, trace + [node])
  {
    var t := trace + [node];
    assert forall i :: 0 <= i < |trace| ==> t[i] == trace[i];
  }

  /** In a total forward graph every edge resolves, to END or to a node declared later. */
  lemma ForwardNext<N>(g: Graph<N>, node: N, s: State)
    requires WellFormed(g) && Forward(g) && Total(g)
    requires node in Keys(g.nodes)
    ensures Next(g, node, s).Go?
    ensures Next(g, node, s).target.To? ==>
      Next(g, node, s).target.name in Keys(g.nodes) && Pos(g, node) < Pos(g, Next(g, node, s).target.name)
  {
    var h := Next(g, node, s);
    if h.Go? && h.target.To? {
      assert h.target in Targets(g.edges[node]);
    }
  }

  /** A piece of trace lies in the declaration-order range strictly before `bound`. */
  ghost predicate Before<N>(g: Graph<N>, trace: seq<N>, bound: nat) {
    forall i :: 0 <= i < |trace| ==> trace[i] in Keys(g.nodes) && Pos(g, trace[i]) < bound
  }

  /**
   * How a run from `node` after `trace` must end in a forward graph: the
   * trace grows by `node` and then increasing nodes, at most one per node
   * not yet passed, and the run stops at END or in a node's fault.
   */
  ghost predicate Ends<N>(g: Graph<N>, trace: seq<N>, node: N, o: Outcome<N>)
    requires node in Keys(g.nodes)
  {
    && Increasing(g, o.trace)
    && |o.trace| <= |trace| + |g.nodes| - Pos(g, node)
    && |trace| < |o.trace|
    && o.trace[|trace|] == node
    && (o.status.Completed? || o.status.halt.NodeFault?)
  }

  /** The step that faults: the node is executed and the run ends there. */
  lemma StepFault<N>(g: Graph<N>, exec: Executor, node: N, s: State, trace: seq<N>, fn: NodeFn, reason: string)
    requires |trace| < RecursionLimit
    requires Lookup(g.nodes, node) == Some(fn)
    requires exec(fn, s) == Fault(reason)
    ensures RunFrom(g, exec, node, s, trace) == Outcome(s, trace + [node], Halted(NodeFault(node, reason)))
  {
  }

  /** A run that stops right after `node` ends as a forward run should. */
  lemma EndsHere<N>(g: Graph<N>, trace: seq<N>, node: N, o: Outcome<N>)
    requires node in Keys(g.nodes)
    requires Increasing(g, trace) && Before(g, trace, Pos(g, node))
    requires o.trace == trace + [node]
    requires o.status.Completed? || o.status.halt.NodeFault?
    ensures Ends(g, trace, node, o)
  {
    ExtendIncreasing(g, trace, node);
    assert o.trace[|trace|] == node;
  }

  /** A run that goes on from `node` to a later node `n` ends as a forward run should. */
  lemma EndsLater<N>(g: Graph<N>, trace: seq<N>, node: N, n: N, o: Outcome<N>)
    requires node in Keys(g.nodes) && n in Keys(g.nodes)
    requires Pos(g, node) < Pos(g, n)
    requires trace + [node] <= o.trace
    requires Ends(g, trace + [node], n, o)
    ensures Ends(g, trace, node, o)
  {
    assert o.trace[|trace|] == (trace + [node])[|trace|];
  }

  /** Every node of `trace + [node]` comes before a node `n` declared after `node`. */
  lemma ExtendBefore<N>(g: Graph<N>, trace: seq<N>, node: N, n: N)
    requires node in Keys(g.nodes) && n in Keys(g.nodes)
    requires Before(g, trace, Pos(g, node))
    requires Pos(g, node) < Pos(g, n)
    ensures Before(g, trace + [node], Pos(g, n))
  {
    var t := trace + [node];
    assert forall i :: 0 <= i < |trace| ==> t[i] == trace[i];
  }

  /**
   * From a node that comes after everything already executed, a run of a
   * forward graph visits nodes in increasing declaration order, takes at
   * most one step per remaining node, and ends at END or in a node's fault.
   */
  lemma {:induction false} ForwardRunFrom<N>(g: Graph<N>, exec: Executor, node: N, s: State, trace: seq<N>)
    requires WellFormed(g) && Forward(g) && Total(g)
    requires |g.nodes| <= RecursionLimit
    requires node in Keys(g.nodes)
    requires Increasing(g, trace) && Before(g, trace, Pos(g, node))
    requires |trace| <= Pos(g, node)
    ensures Ends(g, trace, node, RunFrom(g, exec, node, s, trace))
    decreases |g.nodes| - Pos(g, node)
  {
    var fn := Lookup(g.nodes, node).value;
    var o := RunFrom(g, exec, node, s, trace);
    match exec(fn, s)
    case Fault(reason) =>
      StepFault(g, exec, node, s, trace, fn, reason);
      EndsHere(g, trace, node, o);
    case Ok(u) =>
      var s' := Merge(s, u);
      ForwardNext(g, node, s');
      match Next(g, node, s').target
      case End =>
        StepEnd(g, exec, node, s, trace, fn, u);
        EndsHere(g, trace, node, o);
      case To(n) =>
        ExtendIncreasing(g, trace, node);
        ExtendBefore(g, trace, node, n);
        ForwardRunFrom(g, exec, n, s', trace + [node]);
        StepTo(g, exec, node, s, trace, fn, u, n);
        EndsLater(g, trace, node, n, o);
  }

  /**
   * Every run of a well-formed forward graph with at most `RecursionLimit`
   * nodes starts at the entry, never repeats a node, executes at most one
   * step per node, and ends at END or in a node's fault — never at the
   * recursion limit, an unknown node or a missing branch.
   */
  lemma ForwardRun<N>(g: Graph<N>, exec: Executor, input: State)
    requires WellFormed(g) && Forward(g) && Total(g)
    requires |g.nodes| <= RecursionLimit
    ensures var o := Run(g, exec, input);
      && 1 <= |o.trace| <= |g.nodes|
      && o.trace[0] == g.entry
      && NoRepeats(o.trace)
      && (o.status.Completed? || o.status.halt.NodeFault?)
  {
    ForwardRunFrom(g, exec, g.entry, input, []);
    IncreasingNoRepeats(g, Run(g, exec, input).trace);
    assert Pos(g, g.entry) < |g.nodes|;
  }
}
