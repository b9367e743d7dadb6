/**
 The M factor: per node, the running average over the cycle of the
 discrepancy between the downstream carrier count at the successor snapshot
 and the carrier count on the node's inbound edges at the current snapshot.
 Snapshots where both the inbound total and the node's own successor count
 are zero are skipped and do not advance the average's counter.

 The discrepancy reads node 0's successor count for every node, whichever
 node is being updated; the node's own successor count only takes part in
 the skip rule.
 */
module MFactor {
  import opened Matrices
  import opened Stats
  import opened CyclicTime
  import opened GraphData

  /** Edges among the first n whose receiver is node i, in increasing order. */
  function InboundUpTo(receivers: seq<int>, i: int, n: nat): (es: seq<nat>)
    requires n <= |receivers|
    ensures forall k :: 0 <= k < |es| ==> es[k] < n && receivers[es[k]] == i
    ensures forall e :: 0 <= e < n && receivers[e] == i ==> e in es
  {
    if n == 0 then []
    else InboundUpTo(receivers, i, n - 1) + (if receivers[n - 1] == i then [n - 1] else [])
  }

  /** The lookup table lists inbound edges in increasing edge order, each once. */
  lemma {:induction false} InboundAscending(receivers: seq<int>, i: int, n: nat)
    requires n <= |receivers|
    ensures forall k, l :: 0 <= k < l < |InboundUpTo(receivers, i, n)| ==>
              InboundUpTo(receivers, i, n)[k] < InboundUpTo(receivers, i, n)[l]
  {
    if n > 0 {
      InboundAscending(receivers, i, n - 1);
      var prev := InboundUpTo(receivers, i, n - 1);
      var es := InboundUpTo(receivers, i, n);
      forall k, l | 0 <= k < l < |es|
        ensures es[k] < es[l]
      {
        if l < |prev| {
          assert es[k] == prev[k] && es[l] == prev[l];
          assert prev[k] < prev[l];
        } else {
          assert es[k] == prev[k] < n - 1 == es[l];
        }
      }
    }
  }

  /** The lookup table entry of node i: exactly the edges that end at i. */
  function Inbound(receivers: seq<int>, i: int): (es: seq<nat>)
    ensures forall e :: e in es <==> 0 <= e < |receivers| && receivers[e] == i
  {
    InboundUpTo(receivers, i, |receivers|)
  }

  /** Sum of the carrier counts c[e] over the listed edges. */
  function CarrierSum(c: seq<real>, es: seq<nat>): (total: real)
    requires forall k :: 0 <= k < |es| ==> es[k] < |c|
  {
    if |es| == 0 then 0.0
    else CarrierSum(c, es[..|es| - 1]) + c[es[|es| - 1]]
  }

  /** Reference total: carrier counts of the first n edges, counting only those ending at i. */
  function InboundCarriers(c: seq<real>, receivers: seq<int>, i: int, n: nat): (total: real)
    requires n <= |receivers| && n <= |c|
  {
    if n == 0 then 0.0
    else InboundCarriers(c, receivers, i, n - 1) + (if receivers[n - 1] == i then c[n - 1] else 0.0)
  }

  /** Appending one edge to the list adds its carrier count. */
  lemma CarrierSumAppend(c: seq<real>, es: seq<nat>, e: nat, es': seq<nat>)
    requires e < |c| && forall k :: 0 <= k < |es| ==> es[k] < |c|
    requires es' == es + [e]
    ensures CarrierSum(c, es') == CarrierSum(c, es) + c[e]
  {
    assert es'[..|es|] == es;
  }

  /** Summing over the lookup-table entry gives the masked total over all edges. */
  lemma {:induction false} CarrierSumOfInbound(c: seq<real>, receivers: seq<int>, i: int, n: nat)
    requires n <= |receivers| && n <= |c|
    ensures CarrierSum(c, InboundUpTo(receivers, i, n)) == InboundCarriers(c, receivers, i, n)
  {
    if n > 0 {
      CarrierSumOfInbound(c, receivers, i, n - 1);
      var prev := InboundUpTo(receivers, i, n - 1);
      var es := InboundUpTo(receivers, i, n);
      if receivers[n - 1] == i {
        assert es == prev + [n - 1];
        assert forall k :: 0 <= k < |prev| ==> prev[k] < |c|;
        CarrierSumAppend(c, prev, n - 1, es);
        assert CarrierSum(c, es) == CarrierSum(c, prev) + c[n - 1];
      } else {
        assert es == prev;
      }
    }
  }

  /** Inbound carrier total of node i at snapshot t. */
  function InboundTotal(topo: Topology, s: Series, t: nat, i: nat): (total: real)
    requires Fits(topo, s) && t < Cycle && i < topo.nNodes
  {
    InboundCarriers(Column(s.edges[t], 0), topo.receivers, i, topo.NEdges())
  }

  /** Nothing happens at node i between t and its successor: the snapshot is skipped. */
  predicate Skipped(topo: Topology, s: Series, t: nat, i: nat)
    requires Fits(topo, s) && t < Cycle && i < topo.nNodes
  {
    InboundTotal(topo, s, t, i) == 0.0 && s.nodes[PostIndex(t)][i][0] == 0.0
  }

  /** The discrepancy sample of node i at t; it reads node 0's successor count. */
  function Discrepancy(topo: Topology, s: Series, t: nat, i: nat): (d: real)
    requires Fits(topo, s) && t < Cycle && i < topo.nNodes
  {
    s.nodes[PostIndex(t)][0][0] - InboundTotal(topo, s, t, i)
  }

  /** The discrepancies of node i over the non-skipped snapshots below n, in order. */
  function CountedDiscrepancies(topo: Topology, s: Series, i: nat, n: nat): (ds: seq<real>)
    requires Fits(topo, s) && n <= Cycle && i < topo.nNodes
    ensures |ds| <= n
  {
    if n == 0 then []
    else CountedDiscrepancies(topo, s, i, n - 1)
         + (if Skipped(topo, s, n - 1, i) then [] else [Discrepancy(topo, s, n - 1, i)])
  }

  /**
   One node's state change at one snapshot: a skipped snapshot leaves the
   average m and its counter k alone; otherwise m moves a 1/k step towards
   the discrepancy and k advances.
   */
  function NodeUpdate(m: real, k: nat, inbound: real, ownPost: real, firstPost: real): (r: (real, nat))
    requires k >= 1
    ensures inbound == 0.0 && ownPost == 0.0 ==> r == (m, k)
    ensures !(inbound == 0.0 && ownPost == 0.0) ==>
              r.1 == k + 1 && r.0 * (k as real) == m * ((k - 1) as real) + (firstPost - inbound)
  {
    if inbound == 0.0 && ownPost == 0.0 then (m, k)
    else
      var diff := firstPost - inbound;
      var m' := m + (diff - m) / (k as real);
      assert m' * (k as real) == m * (k as real) + (diff - m);
      (m', k + 1)
  }

  /** Running-mean state of node i after the snapshots below n. */
  ghost predicate Tracks(topo: Topology, s: Series, i: nat, n: nat, m: real, k: nat)
    requires Fits(topo, s) && n <= Cycle && i < topo.nNodes
  {
    var ds := CountedDiscrepancies(topo, s, i, n);
    m == Mean(ds) && k == |ds| + 1
  }

  lemma NodeUpdateTracks(topo: Topology, s: Series, i: nat, t: nat, m: real, k: nat)
    requires Fits(topo, s) && t < Cycle && i < topo.nNodes
    requires Tracks(topo, s, i, t, m, k)
    ensures var r := NodeUpdate(m, k, InboundTotal(topo, s, t, i), s.nodes[PostIndex(t)][i][0], s.nodes[PostIndex(t)][0][0]);
            Tracks(topo, s, i, t + 1, r.0, r.1)
  {
    var ds := CountedDiscrepancies(topo, s, i, t);
    if !Skipped(topo, s, t, i) {
      MeanAppend(ds, Discrepancy(topo, s, t, i), CountedDiscrepancies(topo, s, i, t + 1));
    } else {
      assert ds + [] == ds;
    }
  }

  /** Sums channel 0 over a lookup-table entry, edge by edge. */
  method SumCarriers(edges: Matrix, es: seq<nat>) returns (total: real)
    requires forall e :: 0 <= e < |edges| ==> |edges[e]| > 0
    requires forall k :: 0 <= k < |es| ==> es[k] < |edges|
    ensures total == CarrierSum(Column(edges, 0), es)
  {
    total := 0.0;
    var k := 0;
    while k < |es|
      invariant 0 <= k <= |es|
      invariant total == CarrierSum(Column(edges, 0), es[..k])
    {
      assert es[..k + 1][..k] == es[..k];
      total := total + edges[es[k]][0];
      k := k + 1;
    }
    assert es[..k] == es;
  }

  /**
   One node's update at snapshot t: total the inbound carriers through the
   lookup-table entry, then apply the skip rule and the running-mean step.
   */
  method NodeStep(topo: Topology, s: Series, entry: seq<nat>, t: nat, i: nat, m: real, k: nat)
    returns (m': real, k': nat)
    requires Fits(topo, s) && t < Cycle && i < topo.nNodes
    requires entry == Inbound(topo.receivers, i)
    requires Tracks(topo, s, i, t, m, k)
    ensures Tracks(topo, s, i, t + 1, m', k')
  {
    var edges := s.edges[t];
    var nodesPost := s.nodes[PostIndex(t)];
    var ncarE := SumCarriers(edges, entry);
    assert ncarE == InboundTotal(topo, s, t, i) by {
      CarrierSumOfInbound(Column(edges, 0), topo.receivers, i, topo.NEdges());
    }
    NodeUpdateTracks(topo, s, i, t, m, k);
    var r := NodeUpdate(m, k, ncarE, nodesPost[i][0], nodesPost[0][0]);
    m', k' := r.0, r.1;
  }

  /** One snapshot of the M-factor pass: every node's running average is updated. */
  method MFactorSnapshot(topo: Topology, s: Series, table: seq<seq<nat>>, t: nat,
                         M: seq<real>, ks: seq<nat>)
    returns (M': seq<real>, ks': seq<nat>)
    requires Fits(topo, s) && t < Cycle
    requires |table| == topo.nNodes
    requires forall i :: 0 <= i < topo.nNodes ==> table[i] == Inbound(topo.receivers, i)
    requires |M| == |ks| == topo.nNodes
    requires forall i :: 0 <= i < topo.nNodes ==> Tracks(topo, s, i, t, M[i], ks[i])
    ensures |M'| == |ks'| == topo.nNodes
    ensures forall i :: 0 <= i < topo.nNodes ==> Tracks(topo, s, i, t + 1, M'[i], ks'[i])
  {
    M', ks' := M, ks;
    var i := 0;
    while i < topo.nNodes
      invariant 0 <= i <= topo.nNodes && |M'| == |ks'| == topo.nNodes
      invariant forall n :: 0 <= n < i ==> Tracks(topo, s, n, t + 1, M'[n], ks'[n])
      invariant forall n :: i <= n < topo.nNodes ==> Tracks(topo, s, n, t, M'[n], ks'[n])
    {
      var m, k := NodeStep(topo, s, table[i], t, i, M'[i], ks'[i]);
      M', ks' := M'[i := m], ks'[i := k];
      i := i + 1;
    }
  }

  /**
   The M-factor pass over the whole cycle: node i ends with the mean of its
   non-skipped discrepancies (0 when every snapshot was skipped).
   */
  method CalcMFactor(topo: Topology, s: Series) returns (M: seq<real>)
    requires Fits(topo, s)
    ensures |M| == topo.nNodes
    ensures forall i :: 0 <= i < topo.nNodes ==> M[i] == Mean(CountedDiscrepancies(topo, s, i, Cycle))
  {
    var table := seq(topo.nNodes, i => Inbound(topo.receivers, i));
    M := Zeros(topo.nNodes);
    var ks: seq<nat> := seq(topo.nNodes, i => 1);
    var day := 0;
    while day < Days
      invariant 0 <= day <= Days && |M| == |ks| == topo.nNodes
      invariant forall i :: 0 <= i < topo.nNodes ==> Tracks(topo, s, i, day * NTG, M[i], ks[i])
    {
      var tg := 0;
      while tg < NTG
        invariant 0 <= tg <= NTG && |M| == |ks| == topo.nNodes
        invariant forall i :: 0 <= i < topo.nNodes ==> Tracks(topo, s, i, day * NTG + tg, M[i], ks[i])
      {
        M, ks := MFactorSnapshot(topo, s, table, Index(DayTime(day, tg)), M, ks);
        tg := tg + 1;
      }
      day := day + 1;
    }
  }
}
