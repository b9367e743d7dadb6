/** Row-major real matrices, the shape of every feature array in the store. */
module Matrices {

  type Row = seq<real>
  type Matrix = seq<Row>

  /** Every row has exactly w columns. */
  predicate AllWidth(rows: Matrix, w: nat)
  {
    forall i :: 0 <= i < |rows| ==> |rows[i]| == w
  }

  /** An n-by-w matrix. */
  predicate IsMatrix(m: Matrix, n: nat, w: nat)
  {
    |m| == n && AllWidth(m, w)
  }

  /** Column j of a matrix, as a series. */
  function Column(rows: Matrix, j: nat): (c: seq<real>)
    requires forall i :: 0 <= i < |rows| ==> j < |rows[i]|
    ensures |c| == |rows|
    ensures forall i :: 0 <= i < |rows| ==> c[i] == rows[i][j]
  {
    seq(|rows|, i requires 0 <= i < |rows| => rows[i][j])
  }

  lemma ColumnSnoc(rows: Matrix, x: Row, j: nat)
    requires forall i :: 0 <= i < |rows| ==> j < |rows[i]|
    requires j < |x|
    ensures Column(rows + [x], j) == Column(rows, j) + [x[j]]
  {
  }

  function Zeros(w: nat): (z: Row)
    ensures |z| == w && forall j :: 0 <= j < w ==> z[j] == 0.0
  {
    seq(w, j => 0.0)
  }
}
