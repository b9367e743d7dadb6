/**
 Edge-to-downstream-node covariance. For every edge and every snapshot in
 which the edge carries traffic (edge channel 0 > 0), the edge's first three
 features at t are paired with the receiver node's three features at the
 successor of t; per channel, the unbiased covariance of the paired series
 is the edge's entry. Edges with fewer than two such samples keep a zero row.
 */
module Covariance {
  import opened Matrices
  import opened Stats
  import opened CyclicTime
  import opened GraphData

  /** Number of matched channels. */
  const Channels: nat := 3

  /** One (edge features, downstream node features) observation. */
  datatype Sample = Sample(x: Row, y: Row)

  /** A snapshot contributes to edge e only when the edge's carrier count is positive. */
  predicate Active(topo: Topology, s: Series, t: nat, e: nat)
    requires Fits(topo, s) && t < Cycle && e < topo.NEdges()
  {
    s.edges[t][e][0] > 0.0
  }

  function SampleAt(topo: Topology, s: Series, t: nat, e: nat): (p: Sample)
    requires Fits(topo, s) && t < Cycle && e < topo.NEdges()
    ensures |p.x| == Channels && |p.y| == Channels
  {
    Sample(s.edges[t][e][..Channels], s.nodes[PostIndex(t)][topo.receivers[e]])
  }

  /** The snapshot positions below n at which edge e is active, in increasing order. */
  function ActiveTimes(topo: Topology, s: Series, e: nat, n: nat): (ts: seq<nat>)
    requires Fits(topo, s) && n <= Cycle && e < topo.NEdges()
    ensures forall k :: 0 <= k < |ts| ==> ts[k] < n && Active(topo, s, ts[k], e)
    ensures forall t :: 0 <= t < n && Active(topo, s, t, e) ==> t in ts
    ensures forall k, l :: 0 <= k < l < |ts| ==> ts[k] < ts[l]
  {
    if n == 0 then []
    else ActiveTimes(topo, s, e, n - 1) + (if Active(topo, s, n - 1, e) then [n - 1] else [])
  }

  /** The samples gathered for edge e from the snapshots below n. */
  function ActiveSamples(topo: Topology, s: Series, e: nat, n: nat): (ps: seq<Sample>)
    requires Fits(topo, s) && n <= Cycle && e < topo.NEdges()
    ensures |ps| == |ActiveTimes(topo, s, e, n)|
  {
    var ts := ActiveTimes(topo, s, e, n);
    seq(|ts|, k requires 0 <= k < |ts| => SampleAt(topo, s, ts[k], e))
  }

  lemma ActiveSamplesStep(topo: Topology, s: Series, e: nat, n: nat)
    requires Fits(topo, s) && n < Cycle && e < topo.NEdges()
    ensures ActiveSamples(topo, s, e, n + 1)
         == ActiveSamples(topo, s, e, n) + (if Active(topo, s, n, e) then [SampleAt(topo, s, n, e)] else [])
  {
  }

  function XSeries(ps: seq<Sample>, j: nat): (c: seq<real>)
    requires forall k :: 0 <= k < |ps| ==> j < |ps[k].x|
    ensures |c| == |ps|
  {
    seq(|ps|, k requires 0 <= k < |ps| => ps[k].x[j])
  }

  function YSeries(ps: seq<Sample>, j: nat): (c: seq<real>)
    requires forall k :: 0 <= k < |ps| ==> j < |ps[k].y|
    ensures |c| == |ps|
  {
    seq(|ps|, k requires 0 <= k < |ps| => ps[k].y[j])
  }

  predicate WellShaped(ps: seq<Sample>)
  {
    forall k :: 0 <= k < |ps| ==> |ps[k].x| == Channels && |ps[k].y| == Channels
  }

  /** The unbiased covariance of channel j of the paired series. */
  function ChannelCov(ps: seq<Sample>, j: nat): (c: real)
    requires WellShaped(ps) && |ps| >= 2 && j < Channels
    ensures c * ((|ps| - 1) as real) == CoSum(XSeries(ps, j), YSeries(ps, j), Mean(XSeries(ps, j)), Mean(YSeries(ps, j)))
  {
    SampleCov(XSeries(ps, j), YSeries(ps, j))
  }

  /** The covariance row of one edge from its gathered samples. */
  function CovRow(ps: seq<Sample>): (r: Row)
    requires WellShaped(ps)
    ensures |r| == Channels
    ensures |ps| < 2 ==> r == Zeros(Channels)
    ensures |ps| >= 2 ==> forall j :: 0 <= j < Channels ==>
              r[j] * ((|ps| - 1) as real) == CoSum(XSeries(ps, j), YSeries(ps, j), Mean(XSeries(ps, j)), Mean(YSeries(ps, j)))
  {
    if |ps| < 2 then Zeros(Channels)
    else seq(Channels, j requires 0 <= j < Channels => ChannelCov(ps, j))
  }

  /**
   One snapshot of the gathering pass: every edge active at (day, tg) gets
   the sample pairing its features with its receiver's features at the
   successor snapshot.
   */
  method GatherSnapshot(topo: Topology, s: Series, day: nat, tg: nat, data: seq<seq<Sample>>)
    returns (data': seq<seq<Sample>>)
    requires Fits(topo, s) && DayTime(day, tg).Valid()
    requires |data| == topo.NEdges()
    requires forall e :: 0 <= e < |data| ==> data[e] == ActiveSamples(topo, s, e, Index(DayTime(day, tg)))
    ensures |data'| == |data|
    ensures forall e :: 0 <= e < |data| ==> data'[e] == ActiveSamples(topo, s, e, Index(DayTime(day, tg)) + 1)
  {
    var t := Index(DayTime(day, tg));
    var post := Succ(DayTime(day, tg));
    assert Index(post) == PostIndex(t) by {
      FromIndexOfIndex(DayTime(day, tg));
    }
    var edges := s.edges[t];
    var nodesPost := s.nodes[Index(post)];
    data' := data;
    var i := 0;
    while i < |data|
      invariant 0 <= i <= |data| && |data'| == |data|
      invariant forall e :: 0 <= e < i ==> data'[e] == ActiveSamples(topo, s, e, t + 1)
      invariant forall e :: i <= e < |data| ==> data'[e] == ActiveSamples(topo, s, e, t)
    {
      if edges[i][0] > 0.0 {
        var r := topo.receivers[i];
        var p := Sample(edges[i][..Channels], nodesPost[r]);
        assert data'[i] + [p] == ActiveSamples(topo, s, i, t + 1) by {
          ActiveSamplesStep(topo, s, i, t);
        }
        data' := data'[i := data'[i] + [p]];
      } else {
        assert data'[i] == ActiveSamples(topo, s, i, t + 1) by {
          ActiveSamplesStep(topo, s, i, t);
        }
      }
      i := i + 1;
    }
  }

  /** The gathering pass over the whole cycle, day by day and slot by slot. */
  method GatherSamples(topo: Topology, s: Series) returns (data: seq<seq<Sample>>)
    requires Fits(topo, s)
    ensures |data| == topo.NEdges()
    ensures forall e :: 0 <= e < |data| ==> data[e] == ActiveSamples(topo, s, e, Cycle)
  {
    data := seq(topo.NEdges(), e => []);
    var day := 0;
    while day < Days
      invariant 0 <= day <= Days && |data| == topo.NEdges()
      invariant forall e :: 0 <= e < |data| ==> data[e] == ActiveSamples(topo, s, e, day * NTG)
    {
      var tg := 0;
      while tg < NTG
        invariant 0 <= tg <= NTG && |data| == topo.NEdges()
        invariant forall e :: 0 <= e < |data| ==> data[e] == ActiveSamples(topo, s, e, day * NTG + tg)
      {
        data := GatherSnapshot(topo, s, day, tg, data);
        tg := tg + 1;
      }
      day := day + 1;
    }
  }

  /** One covariance row per gathered sample list, in edge order. */
  method CovRows(data: seq<seq<Sample>>) returns (covs: Matrix)
    requires forall e :: 0 <= e < |data| ==> WellShaped(data[e])
    ensures IsMatrix(covs, |data|, Channels)
    ensures forall e :: 0 <= e < |data| ==> covs[e] == CovRow(data[e])
  {
    covs := [];
    var e := 0;
    while e < |data|
      invariant 0 <= e <= |data| && |covs| == e
      invariant forall i :: 0 <= i < e ==> covs[i] == CovRow(data[i])
    {
      covs := covs + [CovRow(data[e])];
      e := e + 1;
    }
  }

  /**
   The estimator: the gathering pass, then one covariance row per edge from
   its samples; rows of edges with fewer than two samples stay zero.
   */
  method EdgeNodeCovariance(topo: Topology, s: Series) returns (covs: Matrix)
    requires Fits(topo, s)
    ensures IsMatrix(covs, topo.NEdges(), Channels)
    ensures forall e :: 0 <= e < topo.NEdges() ==> covs[e] == CovRow(ActiveSamples(topo, s, e, Cycle))
    ensures forall e :: 0 <= e < topo.NEdges() && |ActiveSamples(topo, s, e, Cycle)| < 2 ==> covs[e] == Zeros(Channels)
  {
    var data := GatherSamples(topo, s);
    covs := CovRows(data);
  }

  /** A row from exactly two samples holds, per channel, (x1 - x2)(y1 - y2) / 2. */
  lemma CovRowOfTwo(ps: seq<Sample>, j: nat)
    requires WellShaped(ps) && |ps| == 2 && j < Channels
    ensures CovRow(ps)[j] == (ps[0].x[j] - ps[1].x[j]) * (ps[0].y[j] - ps[1].y[j]) / 2.0
  {
    assert XSeries(ps, j) == [ps[0].x[j], ps[1].x[j]];
    assert YSeries(ps, j) == [ps[0].y[j], ps[1].y[j]];
    SampleCovTwo(ps[0].x[j], ps[1].x[j], ps[0].y[j], ps[1].y[j]);
  }

  /**
   An edge active in exactly two snapshots t1 < t2 gets, per channel, the
   two-sample covariance (x1 - x2)(y1 - y2) / 2 of its two observations.
   */
  lemma TwoActiveSamples(topo: Topology, s: Series, e: nat, j: nat)
    requires Fits(topo, s) && e < topo.NEdges() && j < Channels
    requires |ActiveTimes(topo, s, e, Cycle)| == 2
    ensures var ts := ActiveTimes(topo, s, e, Cycle);
            var p1 := SampleAt(topo, s, ts[0], e);
            var p2 := SampleAt(topo, s, ts[1], e);
            ts[0] < ts[1]
            && CovRow(ActiveSamples(topo, s, e, Cycle))[j] == (p1.x[j] - p2.x[j]) * (p1.y[j] - p2.y[j]) / 2.0
  {
    var ps := ActiveSamples(topo, s, e, Cycle);
    CovRowOfTwo(ps, j);
  }

  /** Exactly the snapshots where the edge is active contribute, each once, in chronological order. */
  lemma ActiveSamplesExact(topo: Topology, s: Series, e: nat, t: nat)
    requires Fits(topo, s) && e < topo.NEdges() && t < Cycle
    ensures Active(topo, s, t, e) <==> t in ActiveTimes(topo, s, e, Cycle)
    ensures Active(topo, s, t, e) ==>
              exists k :: 0 <= k < |ActiveTimes(topo, s, e, Cycle)| && ActiveTimes(topo, s, e, Cycle)[k] == t
                && ActiveSamples(topo, s, e, Cycle)[k] == SampleAt(topo, s, t, e)
  {
  }
}
