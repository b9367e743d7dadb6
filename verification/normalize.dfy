/**
 The z-score map applied to stored feature matrices and its inverse. A
 statistics table is a 2-row matrix: row 0 holds the column means, row 1 the
 column standard deviations. Normalising subtracts the mean and divides by
 the deviation column-wise; un-normalising multiplies back and adds the
 mean.
 */
module Normalize {
  import opened Matrices

  /** A statistics table for rows of width w: means in row 0, deviations in row 1. */
  predicate IsStats(norms: Matrix, w: nat)
  {
    IsMatrix(norms, 2, w)
  }

  /** A statistics table of any width. */
  predicate IsStatsTable(norms: Matrix)
  {
    |norms| == 2 && IsStats(norms, |norms[0]|)
  }

  /** Every deviation is nonzero, so normalising is defined. */
  predicate NonZero(stds: Row)
  {
    forall j :: 0 <= j < |stds| ==> stds[j] != 0.0
  }

  lemma {:induction false} AffineInverse(x: real, mu: real, sd: real)
    requires sd != 0.0
    ensures ((x - mu) / sd) * sd + mu == x
    ensures (x * sd + mu - mu) / sd == x
  {
  }

  /** One normalised row; multiplying back by the deviation and adding the mean recovers each input entry. */
  function NormRow(x: Row, mus: Row, stds: Row): (r: Row)
    requires |mus| == |x| && |stds| == |x| && NonZero(stds)
    ensures |r| == |x|
    ensures forall j :: 0 <= j < |x| ==> r[j] * stds[j] + mus[j] == x[j]
  {
    var r := seq(|x|, j requires 0 <= j < |x| => (x[j] - mus[j]) / stds[j]);
    assert forall j :: 0 <= j < |x| ==> r[j] * stds[j] + mus[j] == x[j] by {
      forall j | 0 <= j < |x|
        ensures r[j] * stds[j] + mus[j] == x[j]
      {
        AffineInverse(x[j], mus[j], stds[j]);
      }
    }
    r
  }

  /** One un-normalised row under a statistics table; where the deviation is nonzero, normalising recovers the input entry. */
  function UnnormRow(x: Row, norms: Matrix): (r: Row)
    requires IsStats(norms, |x|)
    ensures |r| == |x|
    ensures forall j :: 0 <= j < |x| && norms[1][j] != 0.0 ==> (r[j] - norms[0][j]) / norms[1][j] == x[j]
  {
    var r := seq(|x|, j requires 0 <= j < |x| => x[j] * norms[1][j] + norms[0][j]);
    assert forall j :: 0 <= j < |x| && norms[1][j] != 0.0 ==> (r[j] - norms[0][j]) / norms[1][j] == x[j] by {
      forall j | 0 <= j < |x| && norms[1][j] != 0.0
        ensures (r[j] - norms[0][j]) / norms[1][j] == x[j]
      {
        AffineInverse(x[j], norms[0][j], norms[1][j]);
      }
    }
    r
  }

  /** Normalisation of a whole matrix; every entry multiplied back by its column's deviation plus its mean is the input entry. */
  function NormMatrix(m: Matrix, mus: Row, stds: Row): (r: Matrix)
    requires AllWidth(m, |mus|) && |stds| == |mus| && NonZero(stds)
    ensures IsMatrix(r, |m|, |mus|)
    ensures forall i, j :: 0 <= i < |m| && 0 <= j < |mus| ==> r[i][j] * stds[j] + mus[j] == m[i][j]
  {
    var r := seq(|m|, i requires 0 <= i < |m| => NormRow(m[i], mus, stds));
    assert forall i, j :: 0 <= i < |m| && 0 <= j < |mus| ==> r[i][j] * stds[j] + mus[j] == m[i][j] by {
      forall i | 0 <= i < |m|
        ensures forall j :: 0 <= j < |mus| ==> r[i][j] * stds[j] + mus[j] == m[i][j]
      {
        assert r[i] == NormRow(m[i], mus, stds);
      }
    }
    r
  }

  /** Un-normalisation of a whole matrix; where a column's deviation is nonzero, normalising an entry gives back the input entry. */
  function UnnormMatrix(m: Matrix, norms: Matrix): (r: Matrix)
    requires IsStatsTable(norms) && AllWidth(m, |norms[0]|)
    ensures IsMatrix(r, |m|, |norms[0]|)
    ensures forall i, j :: 0 <= i < |m| && 0 <= j < |norms[0]| && norms[1][j] != 0.0 ==>
              (r[i][j] - norms[0][j]) / norms[1][j] == m[i][j]
  {
    var r := seq(|m|, i requires 0 <= i < |m| => UnnormRow(m[i], norms));
    assert forall i, j :: 0 <= i < |m| && 0 <= j < |norms[0]| && norms[1][j] != 0.0 ==>
             (r[i][j] - norms[0][j]) / norms[1][j] == m[i][j] by {
      forall i | 0 <= i < |m|
        ensures forall j :: 0 <= j < |norms[0]| && norms[1][j] != 0.0 ==> (r[i][j] - norms[0][j]) / norms[1][j] == m[i][j]
      {
        assert r[i] == UnnormRow(m[i], norms);
      }
    }
    r
  }

  /** Un-normalising a normalised matrix with the same table gives the matrix back. */
  lemma {:induction false} UnnormOfNorm(m: Matrix, norms: Matrix)
    requires IsStatsTable(norms) && AllWidth(m, |norms[0]|) && NonZero(norms[1])
    ensures UnnormMatrix(NormMatrix(m, norms[0], norms[1]), norms) == m
  {
    var n := NormMatrix(m, norms[0], norms[1]);
    var u := UnnormMatrix(n, norms);
    forall i | 0 <= i < |m|
      ensures u[i] == m[i]
    {
      assert |u[i]| == |m[i]|;
      forall j | 0 <= j < |m[i]|
        ensures u[i][j] == m[i][j]
      {
        assert u[i][j] == n[i][j] * norms[1][j] + norms[0][j];
      }
    }
  }

  /** Normalising an un-normalised matrix with the same table gives the matrix back. */
  lemma {:induction false} NormOfUnnorm(m: Matrix, norms: Matrix)
    requires IsStatsTable(norms) && AllWidth(m, |norms[0]|) && NonZero(norms[1])
    ensures NormMatrix(UnnormMatrix(m, norms), norms[0], norms[1]) == m
  {
    var u := UnnormMatrix(m, norms);
    var n := NormMatrix(u, norms[0], norms[1]);
    forall i | 0 <= i < |m|
      ensures n[i] == m[i]
    {
      assert |n[i]| == |m[i]|;
      forall j | 0 <= j < |m[i]|
        ensures n[i][j] == m[i][j]
      {
        assert n[i][j] == (u[i][j] - norms[0][j]) / norms[1][j];
      }
    }
  }

  /** A batch of graphs in the graph-network library's flat layout. */
  datatype GraphsTuple = GraphsTuple(
    nodes: Matrix,
    edges: Matrix,
    globals: Matrix,
    senders: seq<int>,
    receivers: seq<int>,
    nNode: seq<int>,
    nEdge: seq<int>)

  /** Un-normalises the node and edge features of a graph and touches nothing else. */
  function UnnormGraph(g: GraphsTuple, nodeNorms: Matrix, edgeNorms: Matrix): (r: GraphsTuple)
    requires IsStatsTable(nodeNorms) && AllWidth(g.nodes, |nodeNorms[0]|)
    requires IsStatsTable(edgeNorms) && AllWidth(g.edges, |edgeNorms[0]|)
    ensures |r.nodes| == |g.nodes| && |r.edges| == |g.edges|
    ensures r.globals == g.globals && r.senders == g.senders && r.receivers == g.receivers
    ensures r.nNode == g.nNode && r.nEdge == g.nEdge
  {
    g.(nodes := UnnormMatrix(g.nodes, nodeNorms), edges := UnnormMatrix(g.edges, edgeNorms))
  }

  /**
   A graph whose node and edge features were normalised with two tables is
   restored exactly by un-normalising it with the same tables.
   */
  lemma {:induction false} UnnormGraphRestores(g: GraphsTuple, nodeNorms: Matrix, edgeNorms: Matrix)
    requires IsStatsTable(nodeNorms) && AllWidth(g.nodes, |nodeNorms[0]|) && NonZero(nodeNorms[1])
    requires IsStatsTable(edgeNorms) && AllWidth(g.edges, |edgeNorms[0]|) && NonZero(edgeNorms[1])
    ensures UnnormGraph(g.(nodes := NormMatrix(g.nodes, nodeNorms[0], nodeNorms[1]),
                           edges := NormMatrix(g.edges, edgeNorms[0], edgeNorms[1])),
                        nodeNorms, edgeNorms) == g
  {
    UnnormOfNorm(g.nodes, nodeNorms);
    UnnormOfNorm(g.edges, edgeNorms);
  }
}
