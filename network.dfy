/**
  The network store seen as a value: a node count and the arcs in creation
  order. Every construction call of the store is a `Call`; `Step` gives the
  network after one call and what the call hands back, and `RunFrom` replays a
  whole log of calls. The lemmas state the identifier discipline of the store:
  node and arc ids are dense, zero-based, handed out in creation order and
  never renumbered, and an arc keeps the endpoints and capacity it was created
  with.
 */
module Network {

  /** The 32-bit signed integer of the capacities vector. */
  newtype i32 = x: int | -0x8000_0000 <= x < 0x8000_0000

  /** One arc: tail node id, head node id and its capacity. */
  datatype Arc = Arc(tail: nat, head: nat, capacity: i32)

  /** Nodes are the ids `[0, nodeCount)`; arc `e` is `arcs[e]`. */
  datatype Net = Net(nodeCount: nat, arcs: seq<Arc>)

  /** The construction calls of the store. */
  datatype Call = AddNode | AddNodes(n: nat) | AddArc(u: nat, v: nat, capacity: i32)

  /** What a construction call returns to its caller. */
  datatype Reply = NodeId(id: nat) | NodeIds(ids: seq<nat>) | ArcId(id: nat)

  const Empty: Net := Net(0, [])

  /** The consecutive ids `lo, lo + 1, ..., hi - 1`. */
  function Range(lo: nat, hi: nat): seq<nat>
    requires lo <= hi
  {
    seq(hi - lo, i requires 0 <= i < hi - lo => lo + i)
  }

  /** The node ids a reply hands out. */
  function NodeIdsOf(reply: Reply): seq<nat>
  {
    match reply
    case NodeId(id) => [id]
    case NodeIds(ids) => ids
    case ArcId(_) => []
  }

  /** The arc ids a reply hands out. */
  function ArcIdsOf(reply: Reply): seq<nat>
  {
    match reply
    case ArcId(id) => [id]
    case _ => []
  }

  /** The arc a call asks for, if it asks for one. */
  function ArcsOfCall(call: Call): seq<Arc>
  {
    match call
    case AddArc(u, v, c) => [Arc(u, v, c)]
    case _ => []
  }

  /** Every node id handed out by a sequence of replies, in order. */
  function NodeIdsIssued(replies: seq<Reply>): seq<nat>
  {
    if replies == [] then []
    else NodeIdsIssued(replies[..|replies| - 1]) + NodeIdsOf(replies[|replies| - 1])
  }

  /** Every arc id handed out by a sequence of replies, in order. */
  function ArcIdsIssued(replies: seq<Reply>): seq<nat>
  {
    if replies == [] then []
    else ArcIdsIssued(replies[..|replies| - 1]) + ArcIdsOf(replies[|replies| - 1])
  }

  /** The arcs asked for by a log of calls, in the order they were asked for. */
  function ArcsRequested(calls: seq<Call>): seq<Arc>
  {
    if calls == [] then []
    else ArcsRequested(calls[..|calls| - 1]) + ArcsOfCall(calls[|calls| - 1])
  }

  /**
    One construction call. The store only ever appends: the existing arcs
    are a prefix of the new ones, the node count never drops, the ids handed
    out are exactly the positions just created, and the only new arc is the
    one the call asked for.
   */
  function Step(net: Net, call: Call): (r: (Net, Reply))
    ensures net.arcs <= r.0.arcs && net.nodeCount <= r.0.nodeCount
    ensures r.0.arcs == net.arcs + ArcsOfCall(call)
    ensures NodeIdsOf(r.1) == Range(net.nodeCount, r.0.nodeCount)
    ensures ArcIdsOf(r.1) == Range(|net.arcs|, |r.0.arcs|)
    ensures call.AddNode? ==> r.1 == NodeId(net.nodeCount) && r.0.nodeCount == net.nodeCount + 1
    ensures call.AddNodes? ==> r.1.NodeIds? && |r.1.ids| == call.n
  {
    match call
    case AddNode =>
      (Net(net.nodeCount + 1, net.arcs), NodeId(net.nodeCount))
    case AddNodes(n) =>
      (Net(net.nodeCount + n, net.arcs), NodeIds(Range(net.nodeCount, net.nodeCount + n)))
    case AddArc(u, v, c) =>
      (Net(net.nodeCount, net.arcs + [Arc(u, v, c)]), ArcId(|net.arcs|))
  }

  /**
    Replays a log of calls starting from `net`: the resulting network and one
    reply per call. The result only extends `net`.
   */
  function RunFrom(net: Net, calls: seq<Call>): (r: (Net, seq<Reply>))
    ensures |r.1| == |calls|
    ensures net.arcs <= r.0.arcs && net.nodeCount <= r.0.nodeCount
    decreases |calls|
  {
    if calls == [] then (net, [])
    else
      var prev := RunFrom(net, calls[..|calls| - 1]);
      var next := Step(prev.0, calls[|calls| - 1]);
      (next.0, prev.1 + [next.1])
  }

  /** The network a fresh store holds after the calls of `calls`. */
  function Run(calls: seq<Call>): (r: (Net, seq<Reply>))
  {
    RunFrom(Empty, calls)
  }

  /** Replaying one more call is one more `Step`. */
  lemma RunFromSnoc(net: Net, calls: seq<Call>, call: Call)
    ensures var prev := RunFrom(net, calls);
            RunFrom(net, calls + [call])
            == (Step(prev.0, call).0, prev.1 + [Step(prev.0, call).1])
  {
    assert (calls + [call])[..|calls|] == calls;
  }

  /** `RunFromSnoc` from a fresh store. */
  lemma RunSnoc(calls: seq<Call>, call: Call)
    ensures Run(calls + [call]).0 == Step(Run(calls).0, call).0
    ensures Run(calls + [call]).1 == Run(calls).1 + [Step(Run(calls).0, call).1]
  {
    RunFromSnoc(Empty, calls, call);
  }

  lemma AppendAssoc<T>(a: seq<T>, b: seq<T>, c: seq<T>)
    ensures (a + b) + c == a + (b + c)
  {
  }

  lemma RangeConcat(a: nat, b: nat, c: nat)
    requires a <= b <= c
    ensures Range(a, b) + Range(b, c) == Range(a, c)
  {
  }

  /**
    Node ids are dense and in creation order: over any log of calls, the node
    ids handed out are exactly the new positions, each once, in increasing
    order.
   */
  lemma {:induction false} NodeIdsAreDense(net: Net, calls: seq<Call>)
    ensures NodeIdsIssued(RunFrom(net, calls).1)
            == Range(net.nodeCount, RunFrom(net, calls).0.nodeCount)
  {
    if calls != [] {
      var init := calls[..|calls| - 1];
      var prev := RunFrom(net, init);
      var next := Step(prev.0, calls[|calls| - 1]);
      NodeIdsAreDense(net, init);
      assert (prev.1 + [next.1])[..|prev.1|] == prev.1;
      RangeConcat(net.nodeCount, prev.0.nodeCount, next.0.nodeCount);
    }
  }

  /**
    Arc ids are dense and in creation order: over any log of calls, the arc
    ids handed out are exactly the new positions of the arcs sequence.
   */
  lemma {:induction false} ArcIdsAreDense(net: Net, calls: seq<Call>)
    ensures ArcIdsIssued(RunFrom(net, calls).1)
            == Range(|net.arcs|, |RunFrom(net, calls).0.arcs|)
  {
    if calls != [] {
      var init := calls[..|calls| - 1];
      var prev := RunFrom(net, init);
      var next := Step(prev.0, calls[|calls| - 1]);
      ArcIdsAreDense(net, init);
      assert (prev.1 + [next.1])[..|prev.1|] == prev.1;
      RangeConcat(|net.arcs|, |prev.0.arcs|, |next.0.arcs|);
    }
  }

  /**
    The arcs of the network are the arcs asked for, in the order they were
    asked for: arc `e` keeps the tail, head and capacity of the `e`-th
    `AddArc` call.
   */
  lemma {:induction false} ArcsFollowCalls(net: Net, calls: seq<Call>)
    ensures RunFrom(net, calls).0.arcs == net.arcs + ArcsRequested(calls)
  {
    if calls != [] {
      var init := calls[..|calls| - 1];
      ArcsFollowCalls(net, init);
      assert RunFrom(net, calls).0.arcs
          == (net.arcs + ArcsRequested(init)) + ArcsOfCall(calls[|calls| - 1]);
    }
  }

  /**
    Replaying a log in two parts is replaying it at once: first the first
    part, then the later part from where the first left the network.
   */
  lemma {:induction false} RunFromConcat(net: Net, first: seq<Call>, later: seq<Call>)
    ensures var mid := RunFrom(net, first);
            RunFrom(net, first + later)
            == (RunFrom(mid.0, later).0, mid.1 + RunFrom(mid.0, later).1)
    decreases |later|
  {
    var mid := RunFrom(net, first);
    if later == [] {
      assert first + later == first;
      assert mid.1 + [] == mid.1;
    } else {
      var init, last := later[..|later| - 1], later[|later| - 1];
      assert first + later == (first + init) + [last];
      assert later == init + [last];
      RunFromConcat(net, first, init);
      RunFromSnoc(net, first + init, last);
      RunFromSnoc(mid.0, init, last);
      var rest := RunFrom(mid.0, init);
      var next := Step(rest.0, last);
      AppendAssoc(mid.1, rest.1, [next.1]);
    }
  }

  /**
    Later calls never renumber or rewrite what earlier calls created: the
    replies already given stay as they were and the arcs already created
    stay a prefix of the arcs.
   */
  lemma EarlierResultsStay(net: Net, first: seq<Call>, later: seq<Call>)
    ensures RunFrom(net, first).0.arcs <= RunFrom(net, first + later).0.arcs
    ensures RunFrom(net, first).0.nodeCount <= RunFrom(net, first + later).0.nodeCount
    ensures RunFrom(net, first).1 <= RunFrom(net, first + later).1
  {
    RunFromConcat(net, first, later);
  }

  /** `n` calls of `AddNode`. */
  function AddNodeCalls(n: nat): seq<Call>
  {
    seq(n, _ => AddNode)
  }

  /**
    `AddNodes(n)` is `n` calls of `AddNode`: the same network results and
    the same node ids are handed out, in the same order.
   */
  lemma {:induction false} AddNodesIsRepeatedAddNode(net: Net, n: nat)
    ensures RunFrom(net, AddNodeCalls(n)).0 == Step(net, AddNodes(n)).0
    ensures NodeIdsIssued(RunFrom(net, AddNodeCalls(n)).1) == Step(net, AddNodes(n)).1.ids
  {
    if n > 0 {
      assert AddNodeCalls(n)[..n - 1] == AddNodeCalls(n - 1);
      AddNodesIsRepeatedAddNode(net, n - 1);
    }
    NodeIdsAreDense(net, AddNodeCalls(n));
  }
}
