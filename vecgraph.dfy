/**
  The graph builder the store delegates node and edge creation to, seen only
  through what the store uses of it: a node counter and the edges in creation
  order.

  Assumption of this model: a node handle and an edge handle are nothing but
  their dense, zero-based position in creation order, so that `Id2Node`,
  `Node2Id` and `Edge2Id` convert between a handle and that position without
  change.
 */
module VecGraph {

  datatype Node = Node(index: nat)
  datatype Edge = Edge(index: nat)

  /** Node handle for an id (the position it was created at). */
  function Id2Node(id: nat): Node
  {
    Node(id)
  }

  /** Id (creation position) of a node handle. */
  function Node2Id(u: Node): nat
  {
    u.index
  }

  /** Id (creation position) of an edge handle. */
  function Edge2Id(e: Edge): nat
  {
    e.index
  }

  /** The finished graph handed to the solver: a copy of the builder's nodes and edges. */
  datatype Graph = Graph(numNodes: nat, edges: seq<(Node, Node)>)
  {
    /** The edge handles of the graph, `Edge(0)` to `Edge(|edges| - 1)`. */
    function Edges(): seq<Edge>
    {
      seq(|edges|, i requires 0 <= i < |edges| => Edge(i))
    }
  }

  datatype VecGraphBuilder = VecGraphBuilder(numNodes: nat, edges: seq<(Node, Node)>)
  {
    /** Adds one node; the new node is the next position and nothing else changes. */
    function AddNode(): (VecGraphBuilder, Node)
    {
      (VecGraphBuilder(numNodes + 1, edges), Node(numNodes))
    }

    /** Adds `n` nodes; they are the next `n` positions, in order. */
    function AddNodes(n: nat): (VecGraphBuilder, seq<Node>)
    {
      (VecGraphBuilder(numNodes + n, edges),
       seq(n, i requires 0 <= i < n => Node(numNodes + i)))
    }

    /** Adds the edge `u -> v`; it is the next edge position and earlier edges stay. */
    function AddEdge(u: Node, v: Node): (VecGraphBuilder, Edge)
    {
      (VecGraphBuilder(numNodes, edges + [(u, v)]), Edge(|edges|))
    }

    function NumEdges(): nat
    {
      |edges|
    }

    /** The graph built so far; the builder itself is left as it is. */
    function IntoGraph(): Graph
    {
      Graph(numNodes, edges)
    }
  }
}
