/**
 The online mean/spread accumulator used to derive normalisation statistics:
 a counter k that starts at 1, a running mean and a running sum of squared
 deviations, updated one feature row at a time (Welford's recurrence) and
 finalised by dividing the spread by k - 1.
 */
module Welford {
  import opened Wrappers
  import opened Matrices
  import opened Stats

  datatype Accumulator = Accumulator(k: int, mean: Row, sumsq: Row) {
    predicate Valid(w: nat) {
      k >= 1 && |mean| == w && |sumsq| == w
    }
  }

  /** Per-column mean and variance of a group of feature rows. */
  datatype Moments = Moments(mean: Row, variance: Row)

  /**
   What an accumulator fed exactly the rows `rows` must hold: one more than
   the row count, the column means, and each column's sum of squared
   deviations from its mean.
   */
  function Summary(w: nat, rows: Matrix): (a: Accumulator)
    requires AllWidth(rows, w)
    ensures a.Valid(w)
  {
    Accumulator(|rows| + 1,
                seq(w, j requires 0 <= j < w => Mean(Column(rows, j))),
                seq(w, j requires 0 <= j < w => SumSqDev(Column(rows, j), Mean(Column(rows, j)))))
  }

  /** The initial state: k = 1, zero mean, zero spread; it summarises no rows. */
  function Start(w: nat): (a: Accumulator)
    ensures a == Summary(w, [])
  {
    Accumulator(1, Zeros(w), Zeros(w))
  }

  /** The running-mean step of one column: k times the new mean is (k - 1) times the old mean plus the sample. */
  function MeanStep(m: real, x: real, k: real): (m': real)
    requires k >= 1.0
    ensures m' * k == m * (k - 1.0) + x
  {
    var m' := m + (x - m) / k;
    assert m' * k == m * k + (x - m);
    m'
  }

  /** The spread step of one column: it grows by the squared deviation from the old mean, scaled by (k - 1) / k. */
  function SpreadStep(q: real, m: real, x: real, k: real): (q': real)
    requires k >= 1.0
    ensures q' == q + (x - m) * (x - m) * (k - 1.0) / k
  {
    var m' := m + (x - m) / k;
    assert x - m' == (x - m) * (k - 1.0) / k;
    q + (x - m) * (x - m')
  }

  /** The mean step of every column. */
  function MeanSteps(mean: Row, x: Row, k: real): (ms: Row)
    requires |mean| == |x| && k >= 1.0
    ensures |ms| == |x|
    ensures forall j :: 0 <= j < |x| ==> ms[j] * k == mean[j] * (k - 1.0) + x[j]
  {
    seq(|x|, j requires 0 <= j < |x| => MeanStep(mean[j], x[j], k))
  }

  /** The spread step of every column. */
  function SpreadSteps(sumsq: Row, mean: Row, x: Row, k: real): (qs: Row)
    requires |sumsq| == |x| && |mean| == |x| && k >= 1.0
    ensures |qs| == |x|
    ensures forall j :: 0 <= j < |x| ==> qs[j] == sumsq[j] + (x[j] - mean[j]) * (x[j] - mean[j]) * (k - 1.0) / k
  {
    seq(|x|, j requires 0 <= j < |x| => SpreadStep(sumsq[j], mean[j], x[j], k))
  }

  /**
   One Welford step with the sample row x: the counter advances, k times
   each column's new mean is (k - 1) times its old mean plus the sample, and
   each spread grows by the squared deviation from the old mean scaled by
   (k - 1) / k.
   */
  function Update(a: Accumulator, x: Row): (r: Accumulator)
    requires a.Valid(|x|)
    ensures r.Valid(|x|) && r.k == a.k + 1
    ensures forall j :: 0 <= j < |x| ==>
              r.mean[j] * (a.k as real) == a.mean[j] * (a.k as real - 1.0) + x[j]
    ensures forall j :: 0 <= j < |x| ==>
              r.sumsq[j] == a.sumsq[j] + (x[j] - a.mean[j]) * (x[j] - a.mean[j]) * (a.k as real - 1.0) / (a.k as real)
  {
    Accumulator(a.k + 1, MeanSteps(a.mean, x, a.k as real), SpreadSteps(a.sumsq, a.mean, x, a.k as real))
  }

  /**
   The loop invariant of every feeding loop: a Welford step on the summary
   of some rows is the summary of those rows plus the new one.
   */
  lemma UpdateSummary(w: nat, rows: Matrix, x: Row)
    requires AllWidth(rows, w) && |x| == w
    ensures AllWidth(rows + [x], w)
    ensures Update(Summary(w, rows), x) == Summary(w, rows + [x])
  {
    var r := Update(Summary(w, rows), x);
    var s := Summary(w, rows + [x]);
    forall j | 0 <= j < w
      ensures r.mean[j] == s.mean[j] && r.sumsq[j] == s.sumsq[j]
    {
      UpdateColumn(w, rows, x, j);
    }
    assert r.mean == s.mean && r.sumsq == s.sumsq;
  }

  /** Column j of a Welford step on a summary is column j of the extended summary. */
  lemma UpdateColumn(w: nat, rows: Matrix, x: Row, j: nat)
    requires AllWidth(rows, w) && |x| == w && j < w
    ensures AllWidth(rows + [x], w)
    ensures Update(Summary(w, rows), x).mean[j] == Summary(w, rows + [x]).mean[j]
    ensures Update(Summary(w, rows), x).sumsq[j] == Summary(w, rows + [x]).sumsq[j]
  {
    var a := Summary(w, rows);
    var s := Summary(w, rows + [x]);
    var r := Update(a, x);
    assert a.mean[j] == Mean(Column(rows, j));
    assert a.sumsq[j] == SumSqDev(Column(rows, j), Mean(Column(rows, j)));
    assert s.mean[j] == Mean(Column(rows + [x], j));
    assert s.sumsq[j] == SumSqDev(Column(rows + [x], j), Mean(Column(rows + [x], j)));
    ColumnStep(rows, x, j);
    StepMatches(a.mean[j], a.sumsq[j], x[j], a.k as real, s.mean[j], s.sumsq[j]);
    assert r.mean[j] == MeanStep(a.mean[j], x[j], a.k as real);
    assert r.sumsq[j] == SpreadStep(a.sumsq[j], a.mean[j], x[j], a.k as real);
  }

  /** The column steps agree with the additive form of Welford's recurrence. */
  lemma StepMatches(m: real, q: real, x: real, k: real, m': real, q': real)
    requires k >= 1.0 && m' == m + (x - m) / k && q' == q + (x - m) * (x - m')
    ensures MeanStep(m, x, k) == m' && SpreadStep(q, m, x, k) == q'
  {
  }

  /** The scalar Welford step on one column. */
  lemma ColumnStep(rows: Matrix, x: Row, j: nat)
    requires forall i :: 0 <= i < |rows| ==> j < |rows[i]|
    requires j < |x|
    ensures Mean(Column(rows + [x], j))
         == Mean(Column(rows, j)) + (x[j] - Mean(Column(rows, j))) / ((|rows| + 1) as real)
    ensures SumSqDev(Column(rows + [x], j), Mean(Column(rows + [x], j)))
         == SumSqDev(Column(rows, j), Mean(Column(rows, j))) + (x[j] - Mean(Column(rows, j))) * (x[j] - Mean(Column(rows + [x], j)))
  {
    var c := Column(rows, j);
    var c' := Column(rows + [x], j);
    assert c' == c + [x[j]] by {
      ColumnSnoc(rows, x, j);
    }
    assert |c| == |rows|;
    MeanAppend(c, x[j], c');
    SumSqDevAppend(c, x[j], c');
  }

  /** Feeds rows in order into an accumulator that already summarises `prior`. */
  method Accumulate(w: nat, a: Accumulator, rows: Matrix, ghost prior: Matrix) returns (r: Accumulator)
    requires AllWidth(prior, w) && AllWidth(rows, w)
    requires a == Summary(w, prior)
    ensures AllWidth(prior + rows, w)
    ensures r == Summary(w, prior + rows)
  {
    r := a;
    var i := 0;
    assert prior + rows[..0] == prior;
    while i < |rows|
      invariant 0 <= i <= |rows|
      invariant AllWidth(prior + rows[..i], w)
      invariant r == Summary(w, prior + rows[..i])
    {
      UpdateSummary(w, prior + rows[..i], rows[i]);
      assert prior + rows[..i + 1] == (prior + rows[..i]) + [rows[i]];
      r := Update(r, rows[i]);
      i := i + 1;
    }
    assert rows[..i] == rows;
  }

  /**
   Finalisation: the spread divided by k - 1, which is the number of rows
   fed. Nothing is defined when no row was fed (k - 1 = 0).
   */
  function Finalize(a: Accumulator): (m: Option<Moments>)
    requires a.Valid(|a.mean|)
    ensures m.Some? <==> a.k >= 2
    ensures m.Some? ==> m.value.mean == a.mean && |m.value.variance| == |a.sumsq|
    ensures m.Some? ==> forall j :: 0 <= j < |a.sumsq| ==> m.value.variance[j] * ((a.k - 1) as real) == a.sumsq[j]
  {
    if a.k < 2 then None
    else Some(Moments(a.mean, seq(|a.sumsq|, j requires 0 <= j < |a.sumsq| => a.sumsq[j] / ((a.k - 1) as real))))
  }

  /** Per-column population (divide by n) means and variances of a non-empty group of rows. */
  function ColumnMoments(w: nat, rows: Matrix): (m: Moments)
    requires AllWidth(rows, w) && |rows| > 0
    ensures |m.mean| == w && |m.variance| == w
  {
    Moments(seq(w, j requires 0 <= j < w => Mean(Column(rows, j))),
            seq(w, j requires 0 <= j < w => PopVariance(Column(rows, j))))
  }

  /**
   Finalising the summary of n rows yields the column means and the
   population variances (spread over n, not n - 1); with no rows there is
   no result.
   */
  lemma FinalizeSummary(w: nat, rows: Matrix)
    requires AllWidth(rows, w)
    ensures |rows| == 0 ==> Finalize(Summary(w, rows)) == None
    ensures |rows| > 0 ==> Finalize(Summary(w, rows)) == Some(ColumnMoments(w, rows))
  {
    if |rows| > 0 {
      var a := Summary(w, rows);
      var f := Finalize(a).value;
      var m := ColumnMoments(w, rows);
      assert f.mean == m.mean;
      forall j | 0 <= j < w
        ensures f.variance[j] == m.variance[j]
      {
        assert |Column(rows, j)| == |rows| == a.k - 1;
      }
      assert f.variance == m.variance;
      assert f == m;
    }
  }

  /** The first row fed sets the mean to exactly that row and leaves the spread at zero. */
  lemma FirstRow(x: Row)
    ensures Update(Start(|x|), x) == Accumulator(2, x, Zeros(|x|))
  {
    UpdateSummary(|x|, [], x);
    assert [] + [x] == [x];
    var s := Summary(|x|, [x]);
    forall j | 0 <= j < |x|
      ensures s.mean[j] == x[j] && s.sumsq[j] == 0.0
    {
      assert Column([x], j) == [] + [x[j]];
      SumSnoc([], x[j]);
      SumSqDevSnoc([], x[j], x[j]);
    }
  }

  /** Every column's accumulated spread is non-negative, so the finalised variance is too. */
  lemma SummarySpreadNonNegative(w: nat, rows: Matrix)
    requires AllWidth(rows, w)
    ensures forall j :: 0 <= j < w ==> Summary(w, rows).sumsq[j] >= 0.0
    ensures |rows| > 0 ==> forall j :: 0 <= j < w ==> ColumnMoments(w, rows).variance[j] >= 0.0
  {
    forall j | 0 <= j < w
      ensures Summary(w, rows).sumsq[j] >= 0.0
      ensures |rows| > 0 ==> ColumnMoments(w, rows).variance[j] >= 0.0
    {
      var c := Column(rows, j);
      SumSqDevNonNegative(c, Mean(c));
      if |rows| > 0 {
        NonNegativeQuotient(SumSqDev(c, Mean(c)), |c| as real);
      }
    }
  }

  lemma NonNegativeQuotient(a: real, b: real)
    requires a >= 0.0 && b > 0.0
    ensures a / b >= 0.0
  {
  }
}
