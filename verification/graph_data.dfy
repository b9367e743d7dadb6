/**
 The network topology and the raw per-snapshot feature series the feature
 pipeline reads.
 */
module GraphData {
  import opened Matrices
  import opened CyclicTime

  /** Raw edge features per row: channel 0 is the carrier count. */
  const EdgeWidth: nat := 4

  /** Raw node features per row: channel 0 is the carrier count. */
  const NodeWidth: nat := 3

  /** The fixed edge list shared by every snapshot: edge e runs senders[e] -> receivers[e]. */
  datatype Topology = Topology(senders: seq<int>, receivers: seq<int>, nNodes: nat) {
    function NEdges(): nat {
      |receivers|
    }

    predicate Valid() {
      && |senders| == |receivers|
      && forall e :: 0 <= e < |receivers| ==> 0 <= senders[e] < nNodes && 0 <= receivers[e] < nNodes
    }
  }

  /**
   Raw snapshots in chronological order: position t holds the node and edge
   feature matrices stored under the key of FromIndex(t).
   */
  datatype Series = Series(nodes: seq<Matrix>, edges: seq<Matrix>)

  /** A full cycle of snapshots shaped for the topology. */
  predicate Fits(topo: Topology, s: Series)
  {
    && topo.Valid()
    && |s.nodes| == Cycle
    && |s.edges| == Cycle
    && (forall t :: 0 <= t < Cycle ==> IsMatrix(s.nodes[t], topo.nNodes, NodeWidth))
    && (forall t :: 0 <= t < Cycle ==> IsMatrix(s.edges[t], topo.NEdges(), EdgeWidth))
  }

  /** Position of the snapshot that follows position t. */
  function PostIndex(t: nat): (p: nat)
    requires t < Cycle
    ensures p < Cycle && p == (t + 1) % Cycle
  {
    SuccIndex(FromIndex(t));
    IndexOfFromIndex(t);
    Index(Succ(FromIndex(t)))
  }
}
