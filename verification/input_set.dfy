/**
 Building the network's input set from the raw snapshot series. Pass 1
 walks the cycle in (day, slot) order: each snapshot's engineered edge and
 node matrices are assembled, row-shuffled and stored, and their first 50
 edge rows and first 20 node rows are fed into two Welford accumulators.
 The finalised accumulators, with square roots of their variances, become
 the edge and node statistics tables. Pass 2 replaces every stored matrix
 by its normalised form and normalises each snapshot's global features
 with the fixed global table. The construction itself uses the global
 table as the program writes it (NormStats.GlblStatsAsWritten); a variant
 with the intended table (NormStats.GlblStats) stands beside it.

 The random draws of the shuffles are inputs (`edgePicks`, `nodePicks`,
 one draw sequence per snapshot), and so is the square root.
 */
module InputSet {
  import opened Wrappers
  import opened Matrices
  import opened CyclicTime
  import opened GraphData
  import opened Covariance
  import opened Welford
  import opened Features
  import opened Normalize
  import opened NormStats

  /** Edge rows of each snapshot fed into the edge accumulator. */
  const EdgeFeed: nat := 50

  /** Node rows of each snapshot fed into the node accumulator. */
  const NodeFeed: nat := 20

  /** Global features per row: day and slot. */
  const GlblWidth: nat := 2

  datatype InputError =
    | MissingEdgeNodeCovs  // no covariance dataset stored
    | MissingMFactor       // no M-factor dataset stored
    | DegenerateStats      // a statistics table has a zero deviation, so normalising is undefined

  datatype Inputs = Inputs(
    topo: Topology,
    s: Series,
    covs: Option<Matrix>,
    M: Option<seq<real>>,
    glbls: seq<Matrix>,
    edgePicks: seq<seq<nat>>,
    nodePicks: seq<seq<nat>>)
  {
    /**
     Shapes the construction relies on: a full cycle fitting
     the topology, a nonzero raw edge feature 3 (the rate's denominator),
     covariance and M-factor datasets of the topology's size when present,
     global rows of width 2, and valid shuffle draws for every snapshot.
     */
    predicate Valid()
    {
      && Fits(topo, s)
      && (forall t :: 0 <= t < Cycle ==> RatesDefined(s.edges[t]))
      && (covs.Some? ==> IsMatrix(covs.value, topo.NEdges(), Channels))
      && (M.Some? ==> |M.value| == topo.nNodes)
      && |glbls| == Cycle
      && (forall t :: 0 <= t < Cycle ==> AllWidth(glbls[t], GlblWidth))
      && |edgePicks| == Cycle
      && (forall t :: 0 <= t < Cycle ==> ValidPicks(edgePicks[t], topo.NEdges()))
      && |nodePicks| == Cycle
      && (forall t :: 0 <= t < Cycle ==> ValidPicks(nodePicks[t], topo.nNodes))
    }

    /** Both side-channel datasets are present. */
    predicate Ready()
    {
      Valid() && covs.Some? && M.Some?
    }
  }

  /** The engineered edge matrix of snapshot t, before shuffling. */
  function AssembledEdges(inp: Inputs, t: nat): (f: Matrix)
    requires inp.Ready() && t < Cycle
    ensures IsMatrix(f, inp.topo.NEdges(), EdgeFeatureWidth)
  {
    EdgeFeatureMatrix(inp.s.edges[t], inp.covs.value)
  }

  /** The engineered node matrix of snapshot t, before shuffling. */
  function AssembledNodes(inp: Inputs, t: nat): (f: Matrix)
    requires inp.Ready() && t < Cycle
    ensures IsMatrix(f, inp.topo.nNodes, NodeFeatureWidth)
  {
    NodeFeatureMatrix(inp.s.nodes[t], inp.M.value)
  }

  /** The edge matrix stored for snapshot t: the assembled matrix under that snapshot's draws. */
  function StoredEdges(inp: Inputs, t: nat): (f: Matrix)
    requires inp.Ready() && t < Cycle
    ensures IsMatrix(f, inp.topo.NEdges(), EdgeFeatureWidth)
  {
    ShuffledWidth(AssembledEdges(inp, t), inp.edgePicks[t], EdgeFeatureWidth);
    Shuffled(AssembledEdges(inp, t), inp.edgePicks[t])
  }

  /** The node matrix stored for snapshot t. */
  function StoredNodes(inp: Inputs, t: nat): (f: Matrix)
    requires inp.Ready() && t < Cycle
    ensures IsMatrix(f, inp.topo.nNodes, NodeFeatureWidth)
  {
    ShuffledWidth(AssembledNodes(inp, t), inp.nodePicks[t], NodeFeatureWidth);
    Shuffled(AssembledNodes(inp, t), inp.nodePicks[t])
  }

  /** The edge rows fed to the edge accumulator by snapshots 0..n-1, in feeding order. */
  function FedEdges(inp: Inputs, n: nat): (rows: Matrix)
    requires inp.Ready() && n <= Cycle
    ensures AllWidth(rows, EdgeFeatureWidth)
  {
    if n == 0 then [] else FedEdges(inp, n - 1) + Take(StoredEdges(inp, n - 1), EdgeFeed)
  }

  /** The node rows fed to the node accumulator by snapshots 0..n-1, in feeding order. */
  function FedNodes(inp: Inputs, n: nat): (rows: Matrix)
    requires inp.Ready() && n <= Cycle
    ensures AllWidth(rows, NodeFeatureWidth)
  {
    if n == 0 then [] else FedNodes(inp, n - 1) + Take(StoredNodes(inp, n - 1), NodeFeed)
  }

  /** A statistics table exists and has no zero deviation. */
  predicate Usable(t: Option<Matrix>)
  {
    t.Some? && |t.value| == 2 && NonZero(t.value[1])
  }

  datatype InputSet = InputSet(
    edgeFeatures: seq<Matrix>,
    nodeFeatures: seq<Matrix>,
    glblFeatures: seq<Matrix>,
    nodeStats: Matrix,
    edgeStats: Matrix,
    glblStats: Matrix)

  /**
   Pass 2's part of a run with global table `glbl`: for every snapshot the
   stored matrices normalised with the run's tables, none of which has a
   zero deviation.
   */
  ghost predicate NormalisedWith(inp: Inputs, glbl: Matrix, out: InputSet)
    requires inp.Ready()
  {
    && out.glblStats == glbl && IsStats(glbl, GlblWidth)
    && IsStats(out.edgeStats, EdgeFeatureWidth) && NonZero(out.edgeStats[1])
    && IsStats(out.nodeStats, NodeFeatureWidth) && NonZero(out.nodeStats[1])
    && NonZero(out.glblStats[1])
    && |out.edgeFeatures| == Cycle && |out.nodeFeatures| == Cycle && |out.glblFeatures| == Cycle
    && (forall t :: 0 <= t < Cycle ==>
          out.edgeFeatures[t] == NormMatrix(StoredEdges(inp, t), out.edgeStats[0], out.edgeStats[1]))
    && (forall t :: 0 <= t < Cycle ==>
          out.nodeFeatures[t] == NormMatrix(StoredNodes(inp, t), out.nodeStats[0], out.nodeStats[1]))
    && (forall t :: 0 <= t < Cycle ==>
          out.glblFeatures[t] == NormMatrix(inp.glbls[t], out.glblStats[0], out.glblStats[1]))
  }

  /**
   What a successful run stores: the statistics tables of the fed rows,
   the global table, and for every snapshot the stored matrices normalised
   with those tables.
   */
  ghost predicate Produced(inp: Inputs, root: real -> real, glbl: Matrix, out: InputSet)
    requires inp.Ready()
  {
    FedStats(inp, root, out) && NormalisedWith(inp, glbl, out)
  }

  /** Pass 1's part of a run: the edge and node tables are the statistics tables of the fed rows. */
  ghost predicate FedStats(inp: Inputs, root: real -> real, out: InputSet)
    requires inp.Ready()
  {
    && Some(out.edgeStats) == StatsTable(EdgeFeatureWidth, FedEdges(inp, Cycle), root)
    && Some(out.nodeStats) == StatsTable(NodeFeatureWidth, FedNodes(inp, Cycle), root)
  }

  /** The stored matrices of the snapshots before position t. */
  ghost predicate StoredUpTo(inp: Inputs, t: nat, storedE: seq<Matrix>, storedN: seq<Matrix>)
    requires inp.Ready() && t <= Cycle
  {
    && |storedE| == t && |storedN| == t
    && (forall k :: 0 <= k < t ==> storedE[k] == StoredEdges(inp, k))
    && (forall k :: 0 <= k < t ==> storedN[k] == StoredNodes(inp, k))
  }

  /** Pass-1 state after the snapshots before position t. */
  ghost predicate Tracked(inp: Inputs, t: nat, ea: Accumulator, na: Accumulator,
                          storedE: seq<Matrix>, storedN: seq<Matrix>)
    requires inp.Ready() && t <= Cycle
  {
    && ea == Summary(EdgeFeatureWidth, FedEdges(inp, t))
    && na == Summary(NodeFeatureWidth, FedNodes(inp, t))
    && StoredUpTo(inp, t, storedE, storedN)
  }

  lemma {:induction false} StoredSnoc(inp: Inputs, t: nat, storedE: seq<Matrix>, storedN: seq<Matrix>, e: Matrix, n: Matrix)
    requires inp.Ready() && t < Cycle
    requires StoredUpTo(inp, t, storedE, storedN)
    requires e == StoredEdges(inp, t) && n == StoredNodes(inp, t)
    ensures StoredUpTo(inp, t + 1, storedE + [e], storedN + [n])
  {
    forall k | 0 <= k < t + 1
      ensures (storedE + [e])[k] == StoredEdges(inp, k) && (storedN + [n])[k] == StoredNodes(inp, k)
    {
      if k < t {
        assert (storedE + [e])[k] == storedE[k] && (storedN + [n])[k] == storedN[k];
      }
    }
  }

  /** Pass 1 for the edges of one snapshot: assemble, shuffle, feed the leading rows. */
  method FeedEdgeSnapshot(inp: Inputs, t: nat, ea: Accumulator) returns (e: Matrix, ea': Accumulator)
    requires inp.Ready() && t < Cycle
    requires ea == Summary(EdgeFeatureWidth, FedEdges(inp, t))
    ensures e == StoredEdges(inp, t)
    ensures ea' == Summary(EdgeFeatureWidth, FedEdges(inp, t + 1))
  {
    e := Shuffle(EdgeFeatureMatrix(inp.s.edges[t], inp.covs.value), inp.edgePicks[t]);
    assert e == StoredEdges(inp, t);
    TakeWidth(e, EdgeFeed, EdgeFeatureWidth);
    ea' := Accumulate(EdgeFeatureWidth, ea, Take(e, EdgeFeed), FedEdges(inp, t));
  }

  /** Pass 1 for the nodes of one snapshot. */
  method FeedNodeSnapshot(inp: Inputs, t: nat, na: Accumulator) returns (n: Matrix, na': Accumulator)
    requires inp.Ready() && t < Cycle
    requires na == Summary(NodeFeatureWidth, FedNodes(inp, t))
    ensures n == StoredNodes(inp, t)
    ensures na' == Summary(NodeFeatureWidth, FedNodes(inp, t + 1))
  {
    n := Shuffle(NodeFeatureMatrix(inp.s.nodes[t], inp.M.value), inp.nodePicks[t]);
    assert n == StoredNodes(inp, t);
    TakeWidth(n, NodeFeed, NodeFeatureWidth);
    na' := Accumulate(NodeFeatureWidth, na, Take(n, NodeFeed), FedNodes(inp, t));
  }

  /** Pass 1 for one snapshot, edges first, then nodes. */
  method SnapshotStep(inp: Inputs, t: nat, ea: Accumulator, na: Accumulator,
                      storedE: seq<Matrix>, storedN: seq<Matrix>)
    returns (ea': Accumulator, na': Accumulator, storedE': seq<Matrix>, storedN': seq<Matrix>)
    requires inp.Ready() && t < Cycle
    requires Tracked(inp, t, ea, na, storedE, storedN)
    ensures Tracked(inp, t + 1, ea', na', storedE', storedN')
  {
    var e, n;
    e, ea' := FeedEdgeSnapshot(inp, t, ea);
    n, na' := FeedNodeSnapshot(inp, t, na);
    StoredSnoc(inp, t, storedE, storedN, e, n);
    storedE', storedN' := storedE + [e], storedN + [n];
  }

  /** Before the first snapshot nothing is stored and both accumulators are at their start. */
  lemma {:induction false} TrackedStart(inp: Inputs)
    requires inp.Ready()
    ensures Tracked(inp, 0, Start(EdgeFeatureWidth), Start(NodeFeatureWidth), [], [])
  {
  }

  /** Pass 1 over the slots of one day. */
  method DayPass(inp: Inputs, day: nat, ea: Accumulator, na: Accumulator,
                 storedE: seq<Matrix>, storedN: seq<Matrix>)
    returns (ea': Accumulator, na': Accumulator, storedE': seq<Matrix>, storedN': seq<Matrix>)
    requires inp.Ready() && day < Days
    requires Tracked(inp, day * NTG, ea, na, storedE, storedN)
    ensures Tracked(inp, day * NTG + NTG, ea', na', storedE', storedN')
  {
    ea', na', storedE', storedN' := ea, na, storedE, storedN;
    var t := day * NTG;
    var tg := 0;
    while tg < NTG
      invariant 0 <= tg <= NTG && t == day * NTG + tg
      invariant Tracked(inp, t, ea', na', storedE', storedN')
    {
      assert t == Index(DayTime(day, tg));
      ea', na', storedE', storedN' := SnapshotStep(inp, t, ea', na', storedE', storedN');
      t := t + 1;
      tg := tg + 1;
    }
  }

  /** Pass 1 over the whole cycle, in (day, slot) order. */
  method StoreAndAccumulate(inp: Inputs) returns (storedE: seq<Matrix>, storedN: seq<Matrix>, ea: Accumulator, na: Accumulator)
    requires inp.Ready()
    ensures Tracked(inp, Cycle, ea, na, storedE, storedN)
  {
    ea, na, storedE, storedN := Start(EdgeFeatureWidth), Start(NodeFeatureWidth), [], [];
    TrackedStart(inp);
    var day := 0;
    while day < Days
      invariant 0 <= day <= Days
      invariant Tracked(inp, day * NTG, ea, na, storedE, storedN)
    {
      ea, na, storedE, storedN := DayPass(inp, day, ea, na, storedE, storedN);
      day := day + 1;
    }
  }

  /**
   Pass 2: every stored matrix is normalised with its group's table, and
   every snapshot's global features with the global table `glbl`.
   */
  method NormalisePass(inp: Inputs, storedE: seq<Matrix>, storedN: seq<Matrix>,
                       edgeStats: Matrix, nodeStats: Matrix, glbl: Matrix)
    returns (out: InputSet)
    requires inp.Ready()
    requires StoredUpTo(inp, Cycle, storedE, storedN)
    requires IsStats(edgeStats, EdgeFeatureWidth) && NonZero(edgeStats[1])
    requires IsStats(nodeStats, NodeFeatureWidth) && NonZero(nodeStats[1])
    requires IsStats(glbl, GlblWidth) && NonZero(glbl[1])
    ensures out.edgeStats == edgeStats && out.nodeStats == nodeStats
    ensures NormalisedWith(inp, glbl, out)
  {
    var edgeFeatures := seq(Cycle, t requires 0 <= t < Cycle => NormMatrix(storedE[t], edgeStats[0], edgeStats[1]));
    var nodeFeatures := seq(Cycle, t requires 0 <= t < Cycle => NormMatrix(storedN[t], nodeStats[0], nodeStats[1]));
    var glblFeatures := seq(Cycle, t requires 0 <= t < Cycle => NormMatrix(inp.glbls[t], glbl[0], glbl[1]));
    out := InputSet(edgeFeatures, nodeFeatures, glblFeatures, nodeStats, edgeStats, glbl);
  }

  /**
   The input-set construction with global table `glbl`. It stops before
   doing anything when the covariance or the M-factor dataset is missing
   (checked in that order); otherwise it succeeds exactly when both
   statistics tables of the fed rows are usable, and then stores
   normalised matrices as Produced describes.
   */
  method BuildInputSet(inp: Inputs, root: real -> real, glbl: Matrix) returns (r: Result<InputSet, InputError>)
    requires inp.Valid() && IsStats(glbl, GlblWidth) && NonZero(glbl[1])
    ensures inp.covs.None? <==> r == Failure(MissingEdgeNodeCovs)
    ensures inp.covs.Some? && inp.M.None? <==> r == Failure(MissingMFactor)
    ensures inp.Ready() ==>
      (r.Success? <==> (Usable(StatsTable(EdgeFeatureWidth, FedEdges(inp, Cycle), root))
                        && Usable(StatsTable(NodeFeatureWidth, FedNodes(inp, Cycle), root))))
    ensures inp.Ready() && r.Failure? ==> r.error == DegenerateStats
    ensures r.Success? ==> inp.Ready() && Produced(inp, root, glbl, r.value)
  {
    if inp.covs.None? {
      return Failure(MissingEdgeNodeCovs);
    }
    if inp.M.None? {
      return Failure(MissingMFactor);
    }
    var storedE, storedN, ea, na := StoreAndAccumulate(inp);
    var et := Table(ea, root);
    var nt := Table(na, root);
    if !Usable(et) || !Usable(nt) {
      return Failure(DegenerateStats);
    }
    var out := NormalisePass(inp, storedE, storedN, et.value, nt.value, glbl);
    r := Success(out);
  }

  /**
   The construction as the program performs it: the globals are
   normalised with, and stored beside, the global table as written.
   */
  method CreateInputSet(inp: Inputs, root: real -> real) returns (r: Result<InputSet, InputError>)
    requires inp.Valid() && IsRoot(root)
    ensures inp.covs.None? <==> r == Failure(MissingEdgeNodeCovs)
    ensures inp.covs.Some? && inp.M.None? <==> r == Failure(MissingMFactor)
    ensures inp.Ready() ==>
      (r.Success? <==> (Usable(StatsTable(EdgeFeatureWidth, FedEdges(inp, Cycle), root))
                        && Usable(StatsTable(NodeFeatureWidth, FedNodes(inp, Cycle), root))))
    ensures inp.Ready() && r.Failure? ==> r.error == DegenerateStats
    ensures r.Success? ==> inp.Ready() && Produced(inp, root, GlblStatsAsWritten(root), r.value)
  {
    GlblStatsAsWrittenValues(root);
    r := BuildInputSet(inp, root, GlblStatsAsWritten(root));
  }

  /** The same construction with the intended global table. */
  method CreateInputSetCorrected(inp: Inputs, root: real -> real) returns (r: Result<InputSet, InputError>)
    requires inp.Valid() && IsRoot(root)
    ensures inp.covs.None? <==> r == Failure(MissingEdgeNodeCovs)
    ensures inp.covs.Some? && inp.M.None? <==> r == Failure(MissingMFactor)
    ensures inp.Ready() ==>
      (r.Success? <==> (Usable(StatsTable(EdgeFeatureWidth, FedEdges(inp, Cycle), root))
                        && Usable(StatsTable(NodeFeatureWidth, FedNodes(inp, Cycle), root))))
    ensures inp.Ready() && r.Failure? ==> r.error == DegenerateStats
    ensures r.Success? ==> inp.Ready() && Produced(inp, root, GlblStats(root), r.value)
  {
    GlblStatsValues(root);
    r := BuildInputSet(inp, root, GlblStats(root));
  }

  /**
   The globals the program stores: a row (day, slot) becomes
   ((day - 3) / 1439.5, (slot - 2) / std(range(NTG))), because the written
   table has its rows transposed.
   */
  lemma {:induction false} InputSetGlobalsAsWritten(inp: Inputs, root: real -> real, out: InputSet, t: nat, k: nat)
    requires inp.Ready() && IsRoot(root) && t < Cycle && k < |inp.glbls[t]|
    requires NormalisedWith(inp, GlblStatsAsWritten(root), out)
    ensures out.glblFeatures[t][k][0] == (inp.glbls[t][k][0] - 3.0) / 1439.5
    ensures out.glblFeatures[t][k][1] == (inp.glbls[t][k][1] - 2.0) / root(8294399.0 / 12.0)
  {
    GlblStatsAsWrittenValues(root);
    var x := inp.glbls[t][k];
    var n := out.glblFeatures[t][k];
    assert n[0] * 1439.5 + 3.0 == x[0];
    assert n[1] * root(8294399.0 / 12.0) + 2.0 == x[1];
  }

  /**
   Un-normalising a produced set with its own tables recovers what pass 1
   stored, which holds exactly the rows assembled for each snapshot, each
   edge row well formed; the global features come back unchanged.
   */
  lemma {:induction false} InputSetRestores(inp: Inputs, root: real -> real, glbl: Matrix, out: InputSet, t: nat)
    requires inp.Ready() && t < Cycle && Produced(inp, root, glbl, out)
    ensures UnnormMatrix(out.edgeFeatures[t], out.edgeStats) == StoredEdges(inp, t)
    ensures UnnormMatrix(out.nodeFeatures[t], out.nodeStats) == StoredNodes(inp, t)
    ensures UnnormMatrix(out.glblFeatures[t], out.glblStats) == inp.glbls[t]
    ensures multiset(StoredEdges(inp, t)) == multiset(AssembledEdges(inp, t))
    ensures multiset(StoredNodes(inp, t)) == multiset(AssembledNodes(inp, t))
    ensures forall k :: 0 <= k < inp.topo.NEdges() ==> ConsistentEdgeRow(StoredEdges(inp, t)[k])
  {
    UnnormOfNorm(StoredEdges(inp, t), out.edgeStats);
    UnnormOfNorm(StoredNodes(inp, t), out.nodeStats);
    UnnormOfNorm(inp.glbls[t], out.glblStats);
    ShuffledPermutes(AssembledEdges(inp, t), inp.edgePicks[t]);
    ShuffledPermutes(AssembledNodes(inp, t), inp.nodePicks[t]);
    ShuffledRows(AssembledEdges(inp, t), StoredEdges(inp, t));
    EdgeFeatureColumns(inp.s.edges[t], inp.covs.value);
  }

  /**
   The stored statistics are the per-column means of the fed rows and the
   square roots of their population variances.
   */
  lemma {:induction false} InputSetStats(inp: Inputs, root: real -> real, out: InputSet)
    requires inp.Ready() && FedStats(inp, root, out)
    ensures forall j :: 0 <= j < EdgeFeatureWidth ==>
      && out.edgeStats[0][j] == Stats.Mean(Column(FedEdges(inp, Cycle), j))
      && out.edgeStats[1][j] == root(Stats.PopVariance(Column(FedEdges(inp, Cycle), j)))
    ensures forall j :: 0 <= j < NodeFeatureWidth ==>
      && out.nodeStats[0][j] == Stats.Mean(Column(FedNodes(inp, Cycle), j))
      && out.nodeStats[1][j] == root(Stats.PopVariance(Column(FedNodes(inp, Cycle), j)))
  {
    StatsTableMeaning(EdgeFeatureWidth, FedEdges(inp, Cycle), root, out.edgeStats);
    StatsTableMeaning(NodeFeatureWidth, FedNodes(inp, Cycle), root, out.nodeStats);
  }
}
