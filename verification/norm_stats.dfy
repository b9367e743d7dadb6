/**
 Normalisation statistics tables (row 0 means, row 1 standard deviations)
 for the node, edge and global feature groups. Node and edge tables come
 from a Welford pass over stored feature rows; the global table is fixed:
 the global features of a snapshot are its day and its slot, each
 distributed uniformly over its range.

 Square roots are not part of the model's arithmetic: a caller-supplied
 function `root` stands for the square root, constrained by IsRoot.
 */
module NormStats {
  import opened Wrappers
  import opened Matrices
  import opened Stats
  import opened CyclicTime
  import opened Welford
  import opened Features
  import opened Normalize

  /** `root` is a square root on the non-negative reals. */
  ghost predicate IsRoot(root: real -> real)
  {
    forall v :: v >= 0.0 ==> root(v) >= 0.0 && root(v) * root(v) == v
  }

  /** The non-negative square root is unique. */
  lemma {:induction false} RootUnique(root: real -> real, v: real, r: real)
    requires IsRoot(root) && v >= 0.0 && r >= 0.0 && r * r == v
    ensures root(v) == r
  {
    var a := root(v);
    assert (a - r) * (a + r) == 0.0;
    ZeroProduct(a - r, a + r);
  }

  lemma {:induction false} ZeroProduct(x: real, y: real)
    requires x * y == 0.0
    ensures x == 0.0 || y == 0.0
  {
  }

  lemma {:induction false} RootPositive(root: real -> real, v: real)
    requires IsRoot(root) && v > 0.0
    ensures root(v) > 0.0
  {
    assert root(v) * root(v) == v;
  }

  /** Element-wise square roots of a row of variances. */
  function Roots(vs: Row, root: real -> real): (r: Row)
    ensures |r| == |vs|
  {
    seq(|vs|, j requires 0 <= j < |vs| => root(vs[j]))
  }

  /**
   The statistics table of a finalised accumulator: the means over the
   square roots of the variances. There is none when no row was fed.
   */
  function Table(a: Accumulator, root: real -> real): (t: Option<Matrix>)
    requires a.Valid(|a.mean|)
    ensures t.Some? <==> a.k >= 2
    ensures t.Some? ==> IsStats(t.value, |a.mean|) && t.value[0] == a.mean
    ensures t.Some? && IsRoot(root) ==>
              forall j :: 0 <= j < |a.mean| && a.sumsq[j] >= 0.0 ==>
                t.value[1][j] >= 0.0 && t.value[1][j] * t.value[1][j] * ((a.k - 1) as real) == a.sumsq[j]
  {
    match Finalize(a)
    case None => None
    case Some(m) => Some([m.mean, Roots(m.variance, root)])
  }

  /** The statistics table that a Welford pass over exactly `rows` yields. */
  function StatsTable(w: nat, rows: Matrix, root: real -> real): (t: Option<Matrix>)
    requires AllWidth(rows, w)
    ensures t.Some? <==> |rows| > 0
    ensures t.Some? ==> IsStats(t.value, w)
  {
    Table(Summary(w, rows), root)
  }

  /**
   Row 0 of a table built from `rows` holds each column's mean; row 1 holds
   the square root of each column's population variance.
   */
  lemma {:induction false} StatsTableMeaning(w: nat, rows: Matrix, root: real -> real, tb: Matrix)
    requires AllWidth(rows, w)
    requires Some(tb) == StatsTable(w, rows, root)
    ensures |rows| > 0 && IsStats(tb, w)
    ensures forall j :: 0 <= j < w ==> tb[0][j] == Mean(Column(rows, j))
    ensures forall j :: 0 <= j < w ==> tb[1][j] == root(PopVariance(Column(rows, j)))
  {
    FinalizeSummary(w, rows);
  }

  /**
   The global statistics as evidently intended: per channel (day, slot),
   the mean over row 0 and the standard deviation over row 1 of the uniform
   ranges [0, Days) and [0, NTG).
   */
  function GlblStats(root: real -> real): (t: Matrix)
    ensures IsStats(t, 2)
  {
    [[Mean(Range(Days)), Mean(Range(NTG))],
     [root(PopVariance(Range(Days))), root(PopVariance(Range(NTG)))]]
  }

  /** The intended table has day mean 3 and deviation 2, slot mean 1439.5, and no zero deviation. */
  lemma {:induction false} GlblStatsValues(root: real -> real)
    requires IsRoot(root)
    ensures GlblStats(root) == [[3.0, 1439.5], [2.0, root(8294399.0 / 12.0)]]
    ensures NonZero(GlblStats(root)[1])
  {
    RangeMean(Days);
    RangeMean(NTG);
    RangeVariance(Days);
    RangeVariance(NTG);
    RootUnique(root, 4.0, 2.0);
    RootPositive(root, 8294399.0 / 12.0);
  }

  /**
   The global table of the statistics pass: the day channel's mean and
   deviation [3.0, 2.0] fill row 0 (the means), and the slot channel's mean
   and deviation fill row 1 (the deviations).
   */
  function GlblStatsAsWritten(root: real -> real): (t: Matrix)
    ensures IsStats(t, 2)
  {
    [[3.0, 2.0], [Mean(Range(NTG)), root(PopVariance(Range(NTG)))]]
  }

  /** The written table holds [3, 2] over [1439.5, std(range(NTG))], and no zero in its deviation row. */
  lemma {:induction false} GlblStatsAsWrittenValues(root: real -> real)
    requires IsRoot(root)
    ensures GlblStatsAsWritten(root) == [[3.0, 2.0], [1439.5, root(8294399.0 / 12.0)]]
    ensures NonZero(GlblStatsAsWritten(root)[1])
  {
    RangeMean(NTG);
    RangeVariance(NTG);
    RootPositive(root, 8294399.0 / 12.0);
  }

  /**
   The written table is the transpose of the intended one, so the slot
   channel is centred on 2.0 instead of 1439.5 and the day channel is
   scaled by 1439.5 instead of 2.
   */
  lemma {:induction false} GlblStatsTransposed(root: real -> real)
    requires IsRoot(root)
    ensures GlblStatsAsWritten(root)
         == [[GlblStats(root)[0][0], GlblStats(root)[1][0]], [GlblStats(root)[0][1], GlblStats(root)[1][1]]]
    ensures GlblStatsAsWritten(root)[0][1] != GlblStats(root)[0][1]
    ensures GlblStatsAsWritten(root)[1][0] != GlblStats(root)[1][0]
  {
    GlblStatsValues(root);
  }

  /**
   A concrete snapshot: day 6, slot 0. The intended table maps its day to
   (6 - 3) / 2 = 1.5; the written table maps it to (6 - 3) / 1439.5.
   */
  lemma {:induction false} GlblNormDiscrepancy(root: real -> real)
    requires IsRoot(root)
    ensures NonZero(GlblStats(root)[1]) && NonZero(GlblStatsAsWritten(root)[1])
    ensures NormRow([6.0, 0.0], GlblStats(root)[0], GlblStats(root)[1])[0] == 1.5
    ensures NormRow([6.0, 0.0], GlblStatsAsWritten(root)[0], GlblStatsAsWritten(root)[1])[0] == 3.0 / 1439.5
  {
    GlblStatsValues(root);
    GlblStatsTransposed(root);
  }

  /** All rows of a sequence of datasets, dataset after dataset. */
  function Concat(sets: seq<Matrix>): (rows: Matrix)
  {
    if |sets| == 0 then [] else Concat(sets[..|sets| - 1]) + sets[|sets| - 1]
  }

  datatype StatsError =
    | BroadcastMismatch  // a row's width differs from the accumulator's width
    | NoRows             // the group holds no row, so no spread is defined

  /**
   Welford steps over `rows` in order; a row whose width differs from the
   accumulator's cannot be combined with it and aborts the pass.
   */
  function FeedChecked(a: Accumulator, rows: Matrix): (r: Result<Accumulator, StatsError>)
    requires a.Valid(|a.mean|)
    ensures r.Success? ==> r.value.Valid(|a.mean|) && r.value.k == a.k + |rows|
    ensures r.Success? <==> forall i :: 0 <= i < |rows| ==> |rows[i]| == |a.mean|
    ensures r.Failure? ==> r.error == BroadcastMismatch
    decreases |rows|
  {
    if |rows| == 0 then Success(a)
    else if |rows[0]| != |a.mean| then Failure(BroadcastMismatch)
    else FeedChecked(Update(a, rows[0]), rows[1..])
  }

  /** Rows of the right width are all absorbed: the result summarises the earlier rows and these. */
  lemma {:induction false} FeedCheckedSummary(w: nat, prior: Matrix, rows: Matrix)
    requires AllWidth(prior, w) && AllWidth(rows, w)
    ensures AllWidth(prior + rows, w)
    ensures FeedChecked(Summary(w, prior), rows) == Success(Summary(w, prior + rows))
    decreases |rows|
  {
    if |rows| == 0 {
      assert prior + rows == prior;
    } else {
      UpdateSummary(w, prior, rows[0]);
      FeedCheckedSummary(w, prior + [rows[0]], rows[1..]);
      assert (prior + [rows[0]]) + rows[1..] == prior + rows;
    }
  }

  /** Statistics of one feature group fed with accumulator width w. */
  function GroupStats(w: nat, sets: seq<Matrix>, root: real -> real): (r: Result<Matrix, StatsError>)
    ensures r.Success? ==> IsStats(r.value, w) && |Concat(sets)| > 0
    ensures r.Success? <==> AllWidth(Concat(sets), w) && |Concat(sets)| > 0
    ensures r.Failure? ==> (r.error == NoRows <==> AllWidth(Concat(sets), w))
  {
    match FeedChecked(Start(w), Concat(sets))
    case Failure(e) => Failure(e)
    case Success(a) =>
      match Table(a, root)
      case None => Failure(NoRows)
      case Some(t) => Success(t)
  }

  /** With rows of the accumulator's width the group's table is the statistics table of all its rows. */
  lemma {:induction false} GroupStatsMeaning(w: nat, sets: seq<Matrix>, root: real -> real)
    requires AllWidth(Concat(sets), w)
    ensures GroupStats(w, sets, root).Success? <==> |Concat(sets)| > 0
    ensures GroupStats(w, sets, root).Success? ==> Some(GroupStats(w, sets, root).value) == StatsTable(w, Concat(sets), root)
  {
    FeedCheckedSummary(w, [], Concat(sets));
    assert [] + Concat(sets) == Concat(sets);
  }

  /** Rows of any other width make the group fail. */
  lemma {:induction false} GroupStatsMismatch(w: nat, w': nat, sets: seq<Matrix>, root: real -> real)
    requires AllWidth(Concat(sets), w') && |Concat(sets)| > 0 && w != w'
    ensures GroupStats(w, sets, root) == Failure(BroadcastMismatch)
  {
    assert |Concat(sets)[0]| == w';
  }

  datatype NormTables = NormTables(nodeStats: Matrix, edgeStats: Matrix, glblStats: Matrix)

  /** The stand-alone statistics pass: a node accumulator of width 5, and the transposed global table. */
  function GetNormStatsAsWritten(nodeSets: seq<Matrix>, edgeSets: seq<Matrix>, root: real -> real): (r: Result<NormTables, StatsError>)
    ensures r.Success? ==> IsStats(r.value.nodeStats, 5) && IsStats(r.value.edgeStats, EdgeFeatureWidth)
    ensures r.Success? ==> r.value.glblStats == GlblStatsAsWritten(root)
    ensures r.Success? ==> |Concat(nodeSets)| > 0 && |Concat(edgeSets)| > 0
  {
    match GroupStats(5, nodeSets, root)
    case Failure(e) => Failure(e)
    case Success(ns) =>
      match GroupStats(EdgeFeatureWidth, edgeSets, root)
      case Failure(e) => Failure(e)
      case Success(es) => Success(NormTables(ns, es, GlblStatsAsWritten(root)))
  }

  /** Any stored node data (4 columns per row) makes the written pass fail at its first node row. */
  lemma {:induction false} GetNormStatsAsWrittenFails(nodeSets: seq<Matrix>, edgeSets: seq<Matrix>, root: real -> real)
    requires AllWidth(Concat(nodeSets), NodeFeatureWidth) && |Concat(nodeSets)| > 0
    ensures GetNormStatsAsWritten(nodeSets, edgeSets, root) == Failure(BroadcastMismatch)
  {
    GroupStatsMismatch(5, NodeFeatureWidth, nodeSets, root);
  }

  /** The stand-alone statistics pass with the node accumulator as wide as a node row and the intended global table. */
  function GetNormStats(nodeSets: seq<Matrix>, edgeSets: seq<Matrix>, root: real -> real): (r: Result<NormTables, StatsError>)
    ensures r.Success? ==> IsStats(r.value.nodeStats, NodeFeatureWidth) && IsStats(r.value.edgeStats, EdgeFeatureWidth)
    ensures r.Success? ==> r.value.glblStats == GlblStats(root)
    ensures r.Success? ==> |Concat(nodeSets)| > 0 && |Concat(edgeSets)| > 0
  {
    match GroupStats(NodeFeatureWidth, nodeSets, root)
    case Failure(e) => Failure(e)
    case Success(ns) =>
      match GroupStats(EdgeFeatureWidth, edgeSets, root)
      case Failure(e) => Failure(e)
      case Success(es) => Success(NormTables(ns, es, GlblStats(root)))
  }

  /**
   On stored node and edge rows the pass succeeds exactly when both groups
   are non-empty, and then each table is the statistics table of all rows
   of its group, in dataset order.
   */
  lemma {:induction false} GetNormStatsMeaning(nodeSets: seq<Matrix>, edgeSets: seq<Matrix>, root: real -> real)
    requires AllWidth(Concat(nodeSets), NodeFeatureWidth) && AllWidth(Concat(edgeSets), EdgeFeatureWidth)
    ensures GetNormStats(nodeSets, edgeSets, root).Success? <==> |Concat(nodeSets)| > 0 && |Concat(edgeSets)| > 0
    ensures GetNormStats(nodeSets, edgeSets, root).Success? ==>
      && Some(GetNormStats(nodeSets, edgeSets, root).value.nodeStats) == StatsTable(NodeFeatureWidth, Concat(nodeSets), root)
      && Some(GetNormStats(nodeSets, edgeSets, root).value.edgeStats) == StatsTable(EdgeFeatureWidth, Concat(edgeSets), root)
      && GetNormStats(nodeSets, edgeSets, root).value.glblStats == GlblStats(root)
    ensures |Concat(nodeSets)| == 0 ==> GetNormStats(nodeSets, edgeSets, root) == Failure(NoRows)
  {
    GroupStatsMeaning(NodeFeatureWidth, nodeSets, root);
    GroupStatsMeaning(EdgeFeatureWidth, edgeSets, root);
  }
}
