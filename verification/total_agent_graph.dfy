/** The whole-pipeline workflow graph: six nodes, each the identity on the
    shared state, chained in a fixed order from the entry node to END. */
module TotalAgentGraph {
  import opened Wrappers
  import opened Values

  datatype Node =
    | ExplorerAgent
    | TechSummaryAgent
    | MarketEvalAgent
    | CompetitorAgent
    | InvestmentAgent
    | ReportAgent

  /** Where an edge leads: another node or the terminal END. */
  datatype Target = To(node: Node) | End

  datatype Graph = Graph(nodes: seq<Node>, edges: seq<(Node, Target)>, entry: Node)

  /** The order in which the nodes are added and chained. */
  const Chain: seq<Node> :=
    [ExplorerAgent, TechSummaryAgent, MarketEvalAgent, CompetitorAgent, InvestmentAgent, ReportAgent]

  /** The edges added by `add_edge`, in order. */
  const Edges: seq<(Node, Target)> := [
    (ExplorerAgent, To(TechSummaryAgent)),
    (TechSummaryAgent, To(MarketEvalAgent)),
    (MarketEvalAgent, To(CompetitorAgent)),
    (CompetitorAgent, To(InvestmentAgent)),
    (InvestmentAgent, To(ReportAgent)),
    (ReportAgent, End)
  ]

  /** The indices of the edges leaving `n`. */
  function OutEdges(edges: seq<(Node, Target)>, n: Node): set<nat> {
    set k: nat | k < |edges| && edges[k].0 == n
  }

  /** The target of the first edge leaving `n`, searching from index `from`. */
  function Successor(edges: seq<(Node, Target)>, n: Node, from: nat := 0): (r: Option<Target>)
    requires from <= |edges|
    ensures r.None? ==> forall k :: from <= k < |edges| ==> edges[k].0 != n
    ensures r.Some? ==> exists k :: from <= k < |edges| && edges[k] == (n, r.value)
    decreases |edges| - from
  {
    if from == |edges| then None
    else if edges[from].0 == n then Some(edges[from].1)
    else Successor(edges, n, from + 1)
  }

  /** The first edge leaving `n` at or after `from` decides the successor;
      later edges leaving `n` play no part. */
  lemma {:induction false} SuccessorIsFirst(edges: seq<(Node, Target)>, n: Node, from: nat, k: nat)
    requires from <= k < |edges| && edges[k].0 == n
    requires forall j :: from <= j < k ==> edges[j].0 != n
    ensures Successor(edges, n, from) == Some(edges[k].1)
    decreases k - from
  {
    if from < k {
      SuccessorIsFirst(edges, n, from + 1, k);
    }
  }

  /** When exactly one edge leaves `n`, the successor is that edge's target. */
  lemma SuccessorOfUniqueEdge(edges: seq<(Node, Target)>, n: Node, p: nat)
    requires p < |edges| && edges[p].0 == n
    requires forall k :: 0 <= k < |edges| && k != p ==> edges[k].0 != n
    ensures Successor(edges, n) == Some(edges[p].1)
  {
  }

  /** Position of a node on the chain. */
  function Position(n: Node): (p: nat)
    ensures p < 6 && Chain[p] == n
  {
    match n
    case ExplorerAgent => 0
    case TechSummaryAgent => 1
    case MarketEvalAgent => 2
    case CompetitorAgent => 3
    case InvestmentAgent => 4
    case ReportAgent => 5
  }

  /** Edge `k` leaves the `k`-th chain node and enters the next one, or END. */
  lemma EdgesFollowChain()
    ensures |Edges| == 6 && Distinct(Chain)
    ensures forall k :: 0 <= k < 6 ==> Edges[k].0 == Chain[k]
    ensures forall k :: 0 <= k < 5 ==> Edges[k].1 == To(Chain[k + 1])
    ensures Edges[5].1 == End
  {
  }

  /** Each function in the graph is `lambda s: s`. */
  function Apply(n: Node, state: Dict): Dict {
    state
  }

  /** `build_total_agent_graph`: the six nodes, the chain of edges ending in
      END, and the entry point. Every node has exactly one outgoing edge. */
  function BuildTotalAgentGraph(): (g: Graph)
    ensures |g.nodes| == 6 && Distinct(g.nodes)
    ensures forall n: Node :: n in g.nodes
    ensures g.entry == ExplorerAgent
    ensures forall n: Node :: OutEdges(g.edges, n) == {Position(n)}
    ensures forall n: Node :: Position(n) < 5 ==> Successor(g.edges, n) == Some(To(Chain[Position(n) + 1]))
    ensures Successor(g.edges, ReportAgent) == Some(End)
  {
    EdgesFollowChain();
    forall n: Node
      ensures OutEdges(Edges, n) == {Position(n)}
      ensures Successor(Edges, n) == Some(Edges[Position(n)].1)
      ensures n in Chain
    {
      var p := Position(n);
      assert forall k :: 0 <= k < |Edges| && k != p ==> Edges[k].0 != n;
      SuccessorOfUniqueEdge(Edges, n, p);
      assert p in OutEdges(Edges, n);
      assert Chain[p] == n;
    }
    Graph(Chain, Edges, ExplorerAgent)
  }

  /** Running the compiled graph from its entry point: every node runs once,
      in chain order, the run reaches END after six node executions, and the
      state comes out as it went in. */
  method Execute(state: Dict) returns (final: Dict, visited: seq<Node>)
    ensures visited == Chain
    ensures |visited| == 6 && Distinct(visited)
    ensures final == state
  {
    var g := BuildTotalAgentGraph();
    var current := To(g.entry);
    final := state;
    visited := [];
    while current.To?
      invariant |visited| <= 6
      invariant visited == Chain[..|visited|]
      invariant current == (if |visited| < 6 then To(Chain[|visited|]) else End)
      invariant final == state
      decreases 6 - |visited|
    {
      var n := current.node;
      assert Position(n) == |visited|;
      final := Apply(n, final);
      visited := visited + [n];
      current := Successor(g.edges, n).value;
    }
    EdgesFollowChain();
  }
}
