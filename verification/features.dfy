/**
 Engineered feature rows. An edge row has 13 columns: the 4 raw edge
 features, the edge's 3 covariances, the 3 covariance-weighted raw features,
 the product of the first two raw features, a rate (DTG / 60) * raw1 / raw3
 and that rate weighted by raw0. A node row has 4 columns: the 3 raw node
 features and the node's M factor. Before storage the rows of each snapshot
 matrix are shuffled in place.
 */
module Features {
  import opened Matrices
  import opened CyclicTime
  import opened GraphData
  import opened Covariance

  const EdgeFeatureWidth: nat := 13
  const NodeFeatureWidth: nat := 4

  /** The derived rate column; the raw feature 3 must be nonzero. */
  function Rate(raw: Row): real
    requires |raw| == EdgeWidth && raw[3] != 0.0
  {
    (DTG / 60.0) * raw[1] / raw[3]
  }

  /**
   One engineered edge row from the raw edge row and the edge's covariance
   row: the raw row in columns 0..3, the covariances in columns 4..6, and
   derived columns 7..12 as DerivedColumns describes them.
   */
  function EdgeRow(raw: Row, cov: Row): (r: Row)
    requires |raw| == EdgeWidth && |cov| == Channels && raw[3] != 0.0
    ensures |r| == EdgeFeatureWidth
    ensures r[..EdgeWidth] == raw && r[EdgeWidth..EdgeWidth + Channels] == cov
    ensures ConsistentEdgeRow(r)
  {
    raw + cov + [cov[0] * raw[0], cov[1] * raw[1], cov[2] * raw[2]]
        + [raw[0] * raw[1], Rate(raw), Rate(raw) * raw[0]]
  }

  /**
   The column-by-column description of the derived part d of an edge row
   (columns 7..12) in terms of its raw part and its covariance part.
   */
  predicate DerivedColumns(raw: Row, cov: Row, d: Row)
  {
    && |raw| == EdgeWidth && |cov| == Channels && |d| == 6
    && raw[3] != 0.0
    && (forall j :: 0 <= j < Channels ==> d[j] == cov[j] * raw[j])
    && d[3] == raw[0] * raw[1]
    && d[4] == (DTG / 60.0) * raw[1] / raw[3]
    && d[5] == d[4] * raw[0]
  }

  /** A well-formed 13-column edge row: raw columns, covariance columns, then the derived columns. */
  predicate ConsistentEdgeRow(r: Row)
  {
    |r| == EdgeFeatureWidth && DerivedColumns(r[..4], r[4..7], r[7..])
  }

  /** Assembled rows carry their inputs unchanged in columns 0..7 and satisfy the column description. */
  lemma {:induction false} EdgeRowLayout(raw: Row, cov: Row)
    requires |raw| == EdgeWidth && |cov| == Channels && raw[3] != 0.0
    ensures EdgeRow(raw, cov)[..4] == raw
    ensures EdgeRow(raw, cov)[4..7] == cov
    ensures ConsistentEdgeRow(EdgeRow(raw, cov))
  {
    var r := EdgeRow(raw, cov);
    assert r[..4] == raw;
    assert r[4..7] == cov;
    assert r[7..] == [cov[0] * raw[0], cov[1] * raw[1], cov[2] * raw[2]]
        + [raw[0] * raw[1], Rate(raw), Rate(raw) * raw[0]];
  }

  /** Conversely, every row meeting the column description is the assembly of its own first 7 columns. */
  lemma {:induction false} ConsistentEdgeRowIsAssembled(r: Row)
    requires ConsistentEdgeRow(r)
    ensures r == EdgeRow(r[..4], r[4..7])
  {
    DerivedColumnsDetermined(r[..4], r[4..7], r[7..]);
    assert r == r[..4] + r[4..7] + r[7..];
  }

  /** The derived columns are a function of the raw and covariance parts. */
  lemma {:induction false} DerivedColumnsDetermined(raw: Row, cov: Row, d: Row)
    requires DerivedColumns(raw, cov, d)
    ensures raw + cov + d == EdgeRow(raw, cov)
  {
    assert d[0] == cov[0] * raw[0] && d[1] == cov[1] * raw[1] && d[2] == cov[2] * raw[2];
    assert d[4] == Rate(raw);
    assert d[5] == Rate(raw) * raw[0] by {
      ScaleEqual(d[4], Rate(raw), raw[0]);
    }
    assert d == [cov[0] * raw[0], cov[1] * raw[1], cov[2] * raw[2]]
        + [raw[0] * raw[1], Rate(raw), Rate(raw) * raw[0]];
  }

  lemma {:induction false} ScaleEqual(a: real, b: real, c: real)
    requires a == b
    ensures a * c == b * c
  {
  }

  /** One engineered node row: the raw node row followed by the node's M factor. */
  function NodeRow(raw: Row, m: real): (r: Row)
    requires |raw| == NodeWidth
    ensures |r| == NodeFeatureWidth
    ensures r[..NodeWidth] == raw && r[NodeWidth] == m
  {
    raw + [m]
  }

  /** Splitting a node row into its raw part and its M factor and reassembling gives the row back. */
  lemma {:induction false} NodeRowSplit(raw: Row, m: real, r: Row)
    requires |raw| == NodeWidth && |r| == NodeFeatureWidth
    ensures NodeRow(raw, m)[..NodeWidth] == raw && NodeRow(raw, m)[NodeWidth] == m
    ensures NodeRow(r[..NodeWidth], r[NodeWidth]) == r
  {
    assert NodeRow(raw, m)[..NodeWidth] == raw;
    assert NodeRow(r[..NodeWidth], r[NodeWidth]) == r;
  }

  /** Every raw edge row of the snapshot has a nonzero feature 3, so the rate is defined. */
  predicate RatesDefined(edges: Matrix)
    requires AllWidth(edges, EdgeWidth)
  {
    forall e :: 0 <= e < |edges| ==> edges[e][3] != 0.0
  }

  /** The engineered edge matrix of one snapshot, row e built from raw row e and covariance row e. */
  function EdgeFeatureMatrix(edges: Matrix, covs: Matrix): (f: Matrix)
    requires AllWidth(edges, EdgeWidth) && IsMatrix(covs, |edges|, Channels) && RatesDefined(edges)
    ensures IsMatrix(f, |edges|, EdgeFeatureWidth)
    ensures forall e :: 0 <= e < |edges| ==>
              f[e][..EdgeWidth] == edges[e] && f[e][EdgeWidth..EdgeWidth + Channels] == covs[e] && ConsistentEdgeRow(f[e])
  {
    seq(|edges|, e requires 0 <= e < |edges| => EdgeRow(edges[e], covs[e]))
  }

  /** The engineered node matrix of one snapshot, row i built from raw row i and M[i]. */
  function NodeFeatureMatrix(nodes: Matrix, M: seq<real>): (f: Matrix)
    requires AllWidth(nodes, NodeWidth) && |M| == |nodes|
    ensures IsMatrix(f, |nodes|, NodeFeatureWidth)
    ensures forall i :: 0 <= i < |nodes| ==> f[i][..NodeWidth] == nodes[i] && f[i][NodeWidth] == M[i]
  {
    seq(|nodes|, i requires 0 <= i < |nodes| => NodeRow(nodes[i], M[i]))
  }

  /** The raw and covariance columns pass into the edge matrix unchanged, and every row is well formed. */
  lemma {:induction false} EdgeFeatureColumns(edges: Matrix, covs: Matrix)
    requires AllWidth(edges, EdgeWidth) && IsMatrix(covs, |edges|, Channels) && RatesDefined(edges)
    ensures forall j :: 0 <= j < EdgeWidth ==> Column(EdgeFeatureMatrix(edges, covs), j) == Column(edges, j)
    ensures forall j :: 0 <= j < Channels ==> Column(EdgeFeatureMatrix(edges, covs), EdgeWidth + j) == Column(covs, j)
    ensures forall e :: 0 <= e < |edges| ==> ConsistentEdgeRow(EdgeFeatureMatrix(edges, covs)[e])
  {
    var f := EdgeFeatureMatrix(edges, covs);
    forall e | 0 <= e < |edges|
      ensures f[e][..4] == edges[e] && f[e][4..7] == covs[e] && ConsistentEdgeRow(f[e])
    {
      EdgeRowLayout(edges[e], covs[e]);
    }
    forall j | 0 <= j < EdgeWidth
      ensures Column(f, j) == Column(edges, j)
    {
      forall e | 0 <= e < |edges|
        ensures f[e][j] == edges[e][j]
      {
        assert f[e][j] == f[e][..4][j];
      }
    }
    forall j | 0 <= j < Channels
      ensures Column(f, EdgeWidth + j) == Column(covs, j)
    {
      forall e | 0 <= e < |edges|
        ensures f[e][EdgeWidth + j] == covs[e][j]
      {
        assert f[e][EdgeWidth + j] == f[e][4..7][j];
      }
    }
  }

  /** The raw columns pass into the node matrix unchanged and column 3 is the M factor. */
  lemma {:induction false} NodeFeatureColumns(nodes: Matrix, M: seq<real>)
    requires AllWidth(nodes, NodeWidth) && |M| == |nodes|
    ensures forall j :: 0 <= j < NodeWidth ==> Column(NodeFeatureMatrix(nodes, M), j) == Column(nodes, j)
    ensures Column(NodeFeatureMatrix(nodes, M), NodeWidth) == M
  {
    var f := NodeFeatureMatrix(nodes, M);
    forall i | 0 <= i < |nodes|
      ensures f[i][..NodeWidth] == nodes[i] && f[i][NodeWidth] == M[i]
    {
      NodeRowSplit(nodes[i], M[i], f[i]);
    }
    forall j | 0 <= j < NodeWidth
      ensures Column(f, j) == Column(nodes, j)
    {
      forall i | 0 <= i < |nodes|
        ensures f[i][j] == nodes[i][j]
      {
        assert f[i][j] == f[i][..NodeWidth][j];
      }
    }
  }

  /** The draws of a row shuffle: step i may pick any row at or below i. */
  predicate ValidPicks(picks: seq<nat>, n: nat)
  {
    |picks| == n && forall i :: 0 <= i < n ==> picks[i] <= i
  }

  /** Rows i and j exchanged. */
  function Swap(s: Matrix, i: nat, j: nat): (r: Matrix)
    requires i < |s| && j < |s|
    ensures |r| == |s| && r[i] == s[j] && r[j] == s[i]
    ensures forall k :: 0 <= k < |s| && k != i && k != j ==> r[k] == s[k]
  {
    s[i := s[j]][j := s[i]]
  }

  /**
   The Fisher-Yates scheme from step i - 1 down to step 1: step k exchanges
   rows k and picks[k], where picks[k] is the random draw of that step.
   */
  function ShuffleDown(rows: Matrix, picks: seq<nat>, i: nat): (r: Matrix)
    requires ValidPicks(picks, |rows|) && i <= |rows|
    ensures |r| == |rows|
    ensures multiset(r) == multiset(rows)
    decreases i
  {
    if i <= 1 then rows
    else
      SwapPreservesMultiset(rows, i - 1, picks[i - 1]);
      ShuffleDown(Swap(rows, i - 1, picks[i - 1]), picks, i - 1)
  }

  /** The shuffle of a whole matrix under the given draws. */
  function Shuffled(rows: Matrix, picks: seq<nat>): (r: Matrix)
    requires ValidPicks(picks, |rows|)
    ensures |r| == |rows|
  {
    ShuffleDown(rows, picks, |rows|)
  }

  lemma {:induction false} SwapPreservesMultiset(s: Matrix, i: nat, j: nat)
    requires i < |s| && j < |s|
    ensures multiset(Swap(s, i, j)) == multiset(s)
  {
    if i != j {
      var t := s[i := s[j]];
      assert multiset(t) == multiset(s) - multiset{s[i]} + multiset{s[j]};
      assert multiset(t[j := s[i]]) == multiset(t) - multiset{t[j]} + multiset{s[i]};
    }
  }

  /** Whatever the draws, a shuffle only reorders rows. */
  lemma {:induction false} ShuffledPermutes(rows: Matrix, picks: seq<nat>)
    requires ValidPicks(picks, |rows|)
    ensures multiset(Shuffled(rows, picks)) == multiset(rows)
  {
  }

  /** The in-place shuffle: for i counting down from n - 1 to 1, row i is swapped with row picks[i]. */
  method Shuffle(rows: Matrix, picks: seq<nat>) returns (r: Matrix)
    requires ValidPicks(picks, |rows|)
    ensures r == Shuffled(rows, picks)
    ensures multiset(r) == multiset(rows)
  {
    r := rows;
    var i := |rows|;
    while i > 1
      invariant 0 <= i <= |rows| && |r| == |rows|
      invariant ShuffleDown(r, picks, i) == Shuffled(rows, picks)
    {
      i := i - 1;
      r := r[i := r[picks[i]]][picks[i] := r[i]];
    }
    ShuffledPermutes(rows, picks);
  }

  /** A shuffle keeps the width of every row. */
  lemma {:induction false} ShuffledWidth(rows: Matrix, picks: seq<nat>, w: nat)
    requires ValidPicks(picks, |rows|) && AllWidth(rows, w)
    ensures AllWidth(Shuffled(rows, picks), w)
  {
    var r := Shuffled(rows, picks);
    ShuffledPermutes(rows, picks);
    ShuffledRows(rows, r);
  }

  /** A shuffled matrix holds exactly the rows it was built from: each stored row is one of them, and conversely. */
  lemma {:induction false} ShuffledRows(rows: Matrix, r: Matrix)
    requires multiset(r) == multiset(rows)
    ensures |r| == |rows|
    ensures forall k :: 0 <= k < |r| ==> r[k] in rows
    ensures forall k :: 0 <= k < |rows| ==> rows[k] in r
  {
    assert |r| == |multiset(r)| == |multiset(rows)| == |rows|;
    forall k | 0 <= k < |r|
      ensures r[k] in rows
    {
      assert r[k] in multiset(r);
    }
    forall k | 0 <= k < |rows|
      ensures rows[k] in r
    {
      assert rows[k] in multiset(rows);
    }
  }

  /** The leading rows a snapshot feeds into an accumulator: the first `cap`, or all when there are fewer. */
  function Take(rows: Matrix, cap: nat): (r: Matrix)
    ensures |r| == if |rows| < cap then |rows| else cap
    ensures forall k :: 0 <= k < |r| ==> r[k] == rows[k]
    ensures multiset(r) <= multiset(rows)
  {
    if |rows| <= cap then rows
    else
      assert rows == rows[..cap] + rows[cap..];
      rows[..cap]
  }

  lemma {:induction false} TakeWidth(rows: Matrix, cap: nat, w: nat)
    requires AllWidth(rows, w)
    ensures AllWidth(Take(rows, cap), w)
  {
    var r := Take(rows, cap);
    forall k | 0 <= k < |r|
      ensures |r[k]| == w
    {
      assert r[k] == rows[k];
    }
  }
}
