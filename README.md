# SimpleMaxFlow network store

A model of the network store behind the `SimpleMaxFlow` max-flow object. Clients
build a directed network step by step, adding nodes one at a time or in batches
and adding arcs with an `i32` capacity. They read back the tail and head of an
arc and the number of arcs. Then they ask for a maximum flow between two nodes.
The store has three parts:

- a graph builder that hands out node and edge handles;
- a capacities vector with one entry per arc, where position `e` holds the capacity of arc `e`;
- a map from arc id to the `(tail, head)` pair given when the arc was added.

Files:

- `network.dfy` (module `Network`) holds the network as a value: a node count and the arcs in creation
  order. Each construction call is a `Call`, `Step` applies one call and `RunFrom` replays a log of calls.
  The lemmas state the identifier discipline: node and arc ids are dense and zero-based, they are handed
  out in creation order and never renumbered, and every arc keeps the endpoints and capacity it was
  created with.
- `vecgraph.dfy` (module `VecGraph`) models the graph builder as a node counter plus a sequence of
  `(tail, head)` handle pairs. **Assumption:** a node or edge handle is exactly its dense, zero-based
  position in creation order. So `Id2Node`, `Node2Id` and `Edge2Id` convert between a handle and that
  position without changing it.
- `simple_max_flow.dfy` (module `MaxFlow`) holds the class `SimpleMaxFlow`, with the source's three fields
  and a ghost log `Calls` of the construction calls made so far. Its invariant `Valid()` says two things.
  The parts are aligned: one capacity per arc, the keys of `edges` are exactly `[0, NumArcs())`, and
  `edges[e]` matches the builder's endpoints of arc `e`. And the network the parts hold is
  `Run(Calls).0`. Every method keeps `Valid()` and says exactly how its fields change.

The model follows the code's error behaviour:

- `add_arc_with_capacity` stores a negative `i32` capacity as given.
- `add_arc_with_capacity` has no node check of its own. Whatever the graph library's `id2node` checks is
  not part of this model.
- `tail` and `head` abort through `unwrap` on an id that has no entry in the edge map. This is modelled
  as the precondition `edgeId < NumArcs()`.

## Model

| member | source | states |
|---|---|---|
| `MaxFlow.SimpleMaxFlow.constructor` | src/lib.rs:30-37 | A new store is valid and empty: no nodes, no arcs, no capacities and an empty edge map. |
| `MaxFlow.SimpleMaxFlow.AddNodes` | src/lib.rs:39-45 | Returns exactly `n` ids, `old count + i` at position `i`: fresh and in creation order. The node count rises by `n`. Arcs, capacities and the edge map are unchanged. The new network is `Step(old, AddNodes(n))` and the invariant holds. |
| `MaxFlow.CollectIds` | src/lib.rs:40-44 | The map-and-collect over the new node handles keeps their order: position `i` of the result is the id of node `i`. |
| `MaxFlow.NewNodeIdsAreRange` | src/lib.rs:39-45 | The ids of the nodes the builder creates in one batch are the next `n` consecutive positions. |
| `MaxFlow.AddNodesKeepsAligned` | src/lib.rs:39-50 | Adding nodes keeps capacities, edge map and builder aligned, and only raises the node count of the held network. |
| `MaxFlow.SimpleMaxFlow.AddNode` | src/lib.rs:47-50 | Returns the fresh id `old count` and raises the node count by exactly one. Arcs, capacities and the edge map are unchanged. The invariant holds. |
| `MaxFlow.SimpleMaxFlow.AddArcWithCapacity` | src/lib.rs:52-62 | Returns `e == old NumArcs()`. It appends exactly one capacity and one map entry under the fresh key `e`, so `NumArcs() == e + 1 == |capacities|`. Afterwards `Tail(e) == u`, `Head(e) == v` and `capacities[e] == capacity`. Every earlier key keeps its entry and the node count is unchanged. |
| `MaxFlow.AddArcKeepsAligned` | src/lib.rs:52-59 | Pushing the capacity, adding the builder edge and inserting at key `|capacities|` keeps the three parts aligned and appends exactly the arc `(u, v, capacity)` to the held network. |
| `MaxFlow.SimpleMaxFlow.Tail` | src/lib.rs:80-82 | For an id below `NumArcs()`, the entry exists and is the tail of arc `edgeId` of the held network, that is, the builder's tail node of that edge. |
| `MaxFlow.SimpleMaxFlow.Head` | src/lib.rs:84-86 | For an id below `NumArcs()`, the entry exists and is the head of arc `edgeId` of the held network, that is, the builder's head node of that edge. |
| `MaxFlow.SimpleMaxFlow.NumArcs` | src/lib.rs:88-90 | The builder's edge count equals the number of capacities, the number of arcs of the held network, and the edge-map keys `[0, n)`. |
| `MaxFlow.SimpleMaxFlow.Capacity` | src/lib.rs:68-70 | The solver's capacity closure: position `e.index()` of the capacities vector, in bounds only below its length, equal to the capacity arc `e` was created with. |
| `MaxFlow.SimpleMaxFlow.SolveMaxFlow` | src/lib.rs:64-70 | Takes the store read-only (no `modifies`, so nothing changes) and hands the solver a copy of the built graph and the source and sink handles. Every edge of the copy is in bounds for the capacity closure. Edge `i` of the copy has the tail, head and capacity of arc `i`. |
| `MaxFlow.SimpleMaxFlow.ArcsAreAsCreated` | src/lib.rs:52-61 | Arc `e` of a valid store has the tail, head and capacity passed to the `e`-th arc-adding call on it. |
| `MaxFlow.SimpleMaxFlow.IdsAreDense` | src/lib.rs:39-61 | Over the store's lifetime, the node ids handed out are exactly `0, 1, ..., numNodes - 1` and the arc ids exactly `0, 1, ..., NumArcs() - 1`, each once and in order. |
| `Network.Step` | src/lib.rs:39-62 | One construction call only appends. Old arcs stay a prefix and the node count never drops. The ids it returns are exactly the positions it created. The only new arc is the one the call asked for. |
| `Network.RunFrom` | src/lib.rs:39-62 | Replaying a log of calls gives one reply per call and only extends the starting network. |
| `Network.NodeIdsAreDense` | src/lib.rs:39-50 | For any log of calls, the node ids handed out are exactly the new positions `[start, end)`, in increasing order, each once. |
| `Network.ArcIdsAreDense` | src/lib.rs:52-61 | For any log of calls, the arc ids handed out are exactly the new arc positions, in increasing order, each once. |
| `Network.ArcsFollowCalls` | src/lib.rs:56-59 | The arcs of the network are the arcs the `AddArc` calls asked for, in call order. |
| `Network.RunFromConcat` | src/lib.rs:39-62 | Replaying `first + later` gives the same network and replies as replaying `first` and then `later` from where `first` left off. |
| `Network.EarlierResultsStay` | src/lib.rs:56-59 | Later calls never rewrite earlier results. Earlier arcs stay a prefix, the node count never drops, and earlier replies stay the same. |
| `Network.AddNodesIsRepeatedAddNode` | src/lib.rs:39-50 | `AddNodes(n)` has the same effect as `n` calls of `AddNode`: the same network and the same ids in the same order. |

## Left out

- The push-relabel computation and the flow result it returns (src/lib.rs:67-75). They live in the external graph library, whose source is not part of this model.
- MaxFlow.SimpleMaxFlow.SolveMaxFlow: returns the inputs it hands to the solver (graph copy, source and sink handles, with `Capacity` as the capacity closure) instead of the flow values and the max-flow value, because those come from the external solver.
- The internals of the graph builder (`add_node`, `add_nodes`, `add_edge`, `id2node`, `node2id`, `edge2id`, `into_graph`, `num_edges`). They are a foreign library and are modelled only as a node counter plus an edge sequence under the dense-position assumption above.
- Node-id validation in `add_arc_with_capacity`. Whatever `id2node` checks is not visible, so the model has no error path for it and does not require `u` and `v` to be existing nodes.
- The `u32` node index of the builder and the width of `usize`. Ids are unbounded naturals, so an overflow of either is not modelled. Capacities are modelled as a 32-bit `i32` newtype.
- Serialization of the result to a JS value, the wasm binding layer and the `Serialize`/`Deserialize` derives. They are foreign-function and serialization plumbing.
- Installing the panic hook (src/lib.rs:31) and the `Default` impl (src/lib.rs:15-19). They are runtime setup with no behaviour to state.
- The abort of `tail`/`head` on an unknown id. It is modelled as the precondition `edgeId < NumArcs()`, not as an error value.
