/**
  The network store of the max-flow library: a graph builder for node and
  edge handles, a capacities vector with one entry per arc (position = arc
  id), and a map from arc id to the `(tail, head)` pair given when the arc was
  added. Every method only appends.
 */
module MaxFlow {
  import opened Network
  import opened VecGraph

  /** See `SimpleMaxFlow.Aligned`. */
  ghost predicate PartsAligned(builder: VecGraphBuilder, edges: map<nat, (nat, nat)>, capacities: seq<i32>)
  {
    && |capacities| == builder.NumEdges()
    && (forall e: nat :: e in edges <==> e < |capacities|)
    && (forall e :: 0 <= e < |capacities| ==>
          edges[e] == (Node2Id(builder.edges[e].0), Node2Id(builder.edges[e].1)))
  }

  /** The network held by aligned parts. */
  ghost function NetOf(builder: VecGraphBuilder, edges: map<nat, (nat, nat)>, capacities: seq<i32>): (net: Net)
    requires PartsAligned(builder, edges, capacities)
  {
    Net(builder.numNodes,
        seq(|capacities|, e requires 0 <= e < |capacities| && e in edges
              => Arc(edges[e].0, edges[e].1, capacities[e])))
  }

  /** Adding nodes to the builder keeps the parts aligned and only raises the node count. */
  lemma AddNodesKeepsAligned(builder: VecGraphBuilder, edges: map<nat, (nat, nat)>, capacities: seq<i32>, n: nat)
    requires PartsAligned(builder, edges, capacities)
    ensures PartsAligned(builder.AddNodes(n).0, edges, capacities)
    ensures NetOf(builder.AddNodes(n).0, edges, capacities)
            == Net(builder.numNodes + n, NetOf(builder, edges, capacities).arcs)
  {
  }

  /** Adding an arc to all three parts keeps them aligned and appends exactly that arc. */
  lemma AddArcKeepsAligned(builder: VecGraphBuilder, edges: map<nat, (nat, nat)>, capacities: seq<i32>,
                           u: nat, v: nat, c: i32)
    requires PartsAligned(builder, edges, capacities)
    ensures var b := builder.AddEdge(Id2Node(u), Id2Node(v)).0;
            var es := edges[|capacities| := (u, v)];
            PartsAligned(b, es, capacities + [c])
            && NetOf(b, es, capacities + [c])
               == Net(builder.numNodes, NetOf(builder, edges, capacities).arcs + [Arc(u, v, c)])
  {
    var b := builder.AddEdge(Id2Node(u), Id2Node(v)).0;
    var es := edges[|capacities| := (u, v)];
    var cs := capacities + [c];
    assert PartsAligned(b, es, cs);
    var before := NetOf(builder, edges, capacities).arcs;
    var after := NetOf(b, es, cs).arcs;
    assert |after| == |before| + 1;
    forall i | 0 <= i < |after|
      ensures after[i] == (before + [Arc(u, v, c)])[i]
    {
    }
  }

  /** The ids of the given node handles, in the same order. */
  method CollectIds(nodes: seq<Node>) returns (ids: seq<nat>)
    ensures |ids| == |nodes|
    ensures forall i :: 0 <= i < |nodes| ==> ids[i] == Node2Id(nodes[i])
  {
    ids := [];
    var i := 0;
    while i < |nodes|
      invariant 0 <= i <= |nodes|
      invariant |ids| == i
      invariant forall k :: 0 <= k < i ==> ids[k] == Node2Id(nodes[k])
    {
      ids := ids + [Node2Id(nodes[i])];
      i := i + 1;
    }
  }

  /** The ids of the nodes `AddNodes(n)` creates are the next `n` positions. */
  lemma NewNodeIdsAreRange(builder: VecGraphBuilder, n: nat, ids: seq<nat>)
    requires |ids| == n
    requires forall i :: 0 <= i < n ==> ids[i] == Node2Id(builder.AddNodes(n).1[i])
    ensures ids == Range(builder.numNodes, builder.numNodes + n)
  {
    var expected := Range(builder.numNodes, builder.numNodes + n);
    forall i | 0 <= i < n
      ensures ids[i] == expected[i]
    {
    }
  }

  class SimpleMaxFlow {
    var edges: map<nat, (nat, nat)>
    var graphBuilder: VecGraphBuilder
    var capacities: seq<i32>

    /** The construction calls made on this store so far. */
    ghost var Calls: seq<Call>

    /**
      The three parts agree: one capacity per arc, the keys of `edges` are
      exactly the arc ids `[0, NumArcs())`, and `edges[e]` holds the ids of the
      builder's endpoints of arc `e`.
     */
    ghost predicate Aligned()
      reads this
    {
      PartsAligned(graphBuilder, edges, capacities)
    }

    /** The network this store holds. */
    ghost function Model(): (net: Net)
      reads this
      requires Aligned()
    {
      NetOf(graphBuilder, edges, capacities)
    }

    /** The store holds exactly what its construction calls built. */
    ghost predicate Valid()
      reads this
    {
      Aligned() && Model() == Run(Calls).0
    }

    constructor ()
      ensures Valid() && Calls == [] && Model() == Empty
    {
      capacities := [];
      graphBuilder := VecGraphBuilder(0, []);
      edges := map[];
      Calls := [];
    }

    /** Adds `n` nodes and returns their ids in creation order. */
    method AddNodes(n: nat) returns (ids: seq<nat>)
      requires Valid()
      modifies this
      ensures Valid() && Calls == old(Calls) + [Network.AddNodes(n)]
      ensures (Model(), NodeIds(ids)) == Step(old(Model()), Network.AddNodes(n))
      ensures |ids| == n
      ensures forall i :: 0 <= i < n ==> ids[i] == old(graphBuilder.numNodes) + i
      ensures graphBuilder.numNodes == old(graphBuilder.numNodes) + n
      ensures edges == old(edges) && capacities == old(capacities)
      ensures graphBuilder.edges == old(graphBuilder.edges)
    {
      ghost var before := Model();
      AddNodesKeepsAligned(graphBuilder, edges, capacities, n);
      RunSnoc(Calls, Network.AddNodes(n));
      var base := graphBuilder.numNodes;
      var (builder, nodes) := graphBuilder.AddNodes(n);
      ids := CollectIds(nodes);
      NewNodeIdsAreRange(old(graphBuilder), n, ids);
      graphBuilder, Calls := builder, Calls + [Network.AddNodes(n)];
      assert Model() == Step(before, Network.AddNodes(n)).0;
    }

    /** Adds one node and returns its id. */
    method AddNode() returns (id: nat)
      requires Valid()
      modifies this
      ensures Valid() && Calls == old(Calls) + [Network.AddNode]
      ensures (Model(), NodeId(id)) == Step(old(Model()), Network.AddNode)
      ensures id == old(graphBuilder.numNodes)
      ensures graphBuilder.numNodes == old(graphBuilder.numNodes) + 1
      ensures edges == old(edges) && capacities == old(capacities)
      ensures graphBuilder.edges == old(graphBuilder.edges)
    {
      ghost var before := Model();
      AddNodesKeepsAligned(graphBuilder, edges, capacities, 1);
      RunSnoc(Calls, Network.AddNode);
      var (builder, node) := graphBuilder.AddNode();
      id := Node2Id(node);
      graphBuilder, Calls := builder, Calls + [Network.AddNode];
      assert Model() == Step(before, Network.AddNode).0;
    }

    /**
      Adds the arc `u -> v` with the given capacity and returns its id: the
      next arc position. Exactly one capacity and one map entry are added;
      nothing recorded for an earlier arc changes.
     */
    method AddArcWithCapacity(u: nat, v: nat, capacity: i32) returns (e: nat)
      requires Valid()
      modifies this
      ensures Valid() && Calls == old(Calls) + [AddArc(u, v, capacity)]
      ensures (Model(), ArcId(e)) == Step(old(Model()), AddArc(u, v, capacity))
      ensures e == old(NumArcs()) && NumArcs() == e + 1
      ensures Tail(e) == u && Head(e) == v && capacities[e] == capacity
      ensures capacities == old(capacities) + [capacity]
      ensures edges == old(edges)[e := (u, v)] && e !in old(edges)
      ensures forall k :: k in old(edges) ==> k in edges && edges[k] == old(edges[k])
      ensures graphBuilder.numNodes == old(graphBuilder.numNodes)
    {
      ghost var before := Model();
      AddArcKeepsAligned(graphBuilder, edges, capacities, u, v, capacity);
      RunSnoc(Calls, AddArc(u, v, capacity));
      var (builder, edge) := graphBuilder.AddEdge(Id2Node(u), Id2Node(v));
      var caps := capacities + [capacity];
      e := Edge2Id(edge);
      graphBuilder, capacities, edges, Calls
        := builder, caps, edges[e := (u, v)], Calls + [AddArc(u, v, capacity)];
      assert Model() == Step(before, AddArc(u, v, capacity)).0;
    }

    /** Tail node id of arc `edgeId`; the lookup aborts on an id with no entry. */
    function Tail(edgeId: nat): (u: nat)
      reads this
      requires Aligned()
      requires edgeId < NumArcs()
      ensures u == Model().arcs[edgeId].tail
      ensures u == Node2Id(graphBuilder.edges[edgeId].0)
    {
      edges[edgeId].0
    }

    /** Head node id of arc `edgeId`; the lookup aborts on an id with no entry. */
    function Head(edgeId: nat): (v: nat)
      reads this
      requires Aligned()
      requires edgeId < NumArcs()
      ensures v == Model().arcs[edgeId].head
      ensures v == Node2Id(graphBuilder.edges[edgeId].1)
    {
      edges[edgeId].1
    }

    /** Number of arcs, as the builder counts them; equal to the number of capacities. */
    function NumArcs(): (n: nat)
      reads this
      ensures Aligned() ==> n == |capacities| && n == |Model().arcs|
      ensures Aligned() ==> forall e: nat :: e in edges <==> e < n
    {
      graphBuilder.NumEdges()
    }

    /**
      The capacity the solver reads for edge `e`: position `e` of the
      capacities vector, which aborts when out of bounds.
     */
    function Capacity(e: Edge): (c: i32)
      reads this
      requires Edge2Id(e) < |capacities|
      ensures Aligned() ==> c == Model().arcs[Edge2Id(e)].capacity
    {
      capacities[Edge2Id(e)]
    }

    /**
      Arc `e` holds what the `e`-th `AddArc` call on this store asked for:
      its tail, head and capacity.
     */
    lemma ArcsAreAsCreated(e: nat)
      requires Valid()
      requires e < NumArcs()
      ensures e < |ArcsRequested(Calls)|
      ensures Tail(e) == ArcsRequested(Calls)[e].tail
      ensures Head(e) == ArcsRequested(Calls)[e].head
      ensures capacities[e] == ArcsRequested(Calls)[e].capacity
    {
      ArcsFollowCalls(Empty, Calls);
      assert Model().arcs == ArcsRequested(Calls);
    }

    /**
      The ids this store has handed out are exactly the node ids
      `[0, numNodes)` and the arc ids `[0, NumArcs())`, each once, in
      creation order.
     */
    lemma IdsAreDense()
      requires Valid()
      ensures NodeIdsIssued(Run(Calls).1) == Range(0, graphBuilder.numNodes)
      ensures ArcIdsIssued(Run(Calls).1) == Range(0, NumArcs())
    {
      NodeIdsAreDense(Empty, Calls);
      ArcIdsAreDense(Empty, Calls);
    }

    /**
      The inputs of a solve: a copy of the built graph, the source and sink
      handles, and the capacity lookup `Capacity`, which is in bounds for every
      edge of the copy. The store itself is not changed.
     */
    method SolveMaxFlow(source: nat, sink: nat) returns (g: Graph, src: Node, snk: Node)
      requires Valid()
      ensures Node2Id(src) == source && Node2Id(snk) == sink
      ensures g.numNodes == Model().nodeCount && |g.edges| == NumArcs()
      ensures forall e :: e in g.Edges() ==> Edge2Id(e) < |capacities|
      ensures forall i :: 0 <= i < |g.edges| ==>
                Node2Id(g.edges[i].0) == Tail(i) && Node2Id(g.edges[i].1) == Head(i)
                && Capacity(Edge(i)) == Model().arcs[i].capacity
    {
      src := Id2Node(source);
      snk := Id2Node(sink);
      g := graphBuilder.IntoGraph();
    }
  }
}
