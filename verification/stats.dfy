/**
 Reference definitions of the sample statistics the pipeline estimates, over
 exact reals: sum, arithmetic mean, sum of squared deviations, population
 variance and the unbiased (n - 1) covariance, with the algebraic facts the
 streaming estimators rely on.
 */
module Stats {

  function Sum(xs: seq<real>): (s: real)
  {
    if |xs| == 0 then 0.0 else Sum(xs[..|xs| - 1]) + xs[|xs| - 1]
  }

  /** Arithmetic mean; 0 for the empty series (the accumulators' initial mean). */
  function Mean(xs: seq<real>): (m: real)
  {
    if |xs| == 0 then 0.0 else Sum(xs) / (|xs| as real)
  }

  /** Sum of squared deviations of xs from the point c. */
  function SumSqDev(xs: seq<real>, c: real): (d: real)
  {
    if |xs| == 0 then 0.0 else SumSqDev(xs[..|xs| - 1], c) + (xs[|xs| - 1] - c) * (xs[|xs| - 1] - c)
  }

  /** Population (divide by n) variance. */
  function PopVariance(xs: seq<real>): (v: real)
    requires |xs| > 0
  {
    SumSqDev(xs, Mean(xs)) / (|xs| as real)
  }

  /** Sum of co-deviations of paired series from the points (cx, cy). */
  function CoSum(xs: seq<real>, ys: seq<real>, cx: real, cy: real): (c: real)
    requires |xs| == |ys|
  {
    if |xs| == 0 then 0.0
    else CoSum(xs[..|xs| - 1], ys[..|ys| - 1], cx, cy) + (xs[|xs| - 1] - cx) * (ys[|ys| - 1] - cy)
  }

  /** Unbiased sample covariance: mean-centred dot product over n - 1. */
  function SampleCov(xs: seq<real>, ys: seq<real>): (c: real)
    requires |xs| == |ys| >= 2
    ensures c * ((|xs| - 1) as real) == CoSum(xs, ys, Mean(xs), Mean(ys))
  {
    CoSum(xs, ys, Mean(xs), Mean(ys)) / ((|xs| - 1) as real)
  }

  lemma {:induction false} SumSnoc(xs: seq<real>, x: real)
    ensures Sum(xs + [x]) == Sum(xs) + x
  {
    assert (xs + [x])[..|xs|] == xs;
  }

  lemma {:induction false} SumSqDevSnoc(xs: seq<real>, x: real, c: real)
    ensures SumSqDev(xs + [x], c) == SumSqDev(xs, c) + (x - c) * (x - c)
  {
    assert (xs + [x])[..|xs|] == xs;
  }

  /** A sum of squares is never negative. */
  lemma {:induction false} SumSqDevNonNegative(xs: seq<real>, c: real)
    ensures SumSqDev(xs, c) >= 0.0
  {
    if |xs| > 0 {
      SumSqDevNonNegative(xs[..|xs| - 1], c);
      var d := xs[|xs| - 1] - c;
      assert d * d >= 0.0;
    }
  }

  /** The mean times the count is the sum. */
  lemma {:induction false} MeanTimesCount(xs: seq<real>)
    ensures Mean(xs) * (|xs| as real) == Sum(xs)
  {
  }

  /** The parts of an appended sequence, without any arithmetic. */
  lemma {:induction false} AppendParts(xs: seq<real>, x: real, ys: seq<real>)
    requires ys == xs + [x]
    ensures |ys| == |xs| + 1 && ys[..|xs|] == xs && ys[|xs|] == x
  {
  }

  /** The running-mean recurrence with the division cleared: (n + 1) m' = n m + x. */
  lemma {:induction false} MeanAppendScaled(xs: seq<real>, x: real, ys: seq<real>)
    requires ys == xs + [x]
    ensures Mean(ys) * (|ys| as real) == Mean(xs) * (|xs| as real) + x
  {
    AppendParts(xs, x, ys);
    assert Sum(ys) == Sum(xs) + x;
    MeanTimesCount(xs);
    MeanTimesCount(ys);
  }

  /**
   The running-mean recurrence: appending x moves the mean by
   (x - mean) / (n + 1).
   */
  lemma {:induction false} MeanAppend(xs: seq<real>, x: real, ys: seq<real>)
    requires ys == xs + [x]
    ensures Mean(ys) == Mean(xs) + (x - Mean(xs)) / ((|xs| + 1) as real)
  {
    assert |ys| == |xs| + 1;
    assert Mean(ys) * ((|xs| + 1) as real) == Mean(xs) * (|xs| as real) + x by {
      MeanAppendScaled(xs, x, ys);
    }
    MeanStepAlgebra(Mean(xs), Mean(ys), |xs| as real, (|xs| + 1) as real, x);
  }

  lemma MeanStepAlgebra(m: real, m': real, n: real, n': real, x: real)
    requires n >= 0.0 && n' == n + 1.0 && m' * n' == m * n + x
    ensures m' == m + (x - m) / n'
  {
    var q := m + (x - m) / n';
    assert q * n' == m * n' + (x - m);
  }

  /**
   Moving the centre of a sum of squared deviations from a to c:
   SSD(c) = SSD(a) + 2 (a - c) (S - n a) + n (a - c)^2.
   */
  lemma {:induction false} SumSqDevShift(xs: seq<real>, a: real, c: real)
    ensures SumSqDev(xs, c)
         == SumSqDev(xs, a) + 2.0 * (a - c) * (Sum(xs) - (|xs| as real) * a) + (|xs| as real) * (a - c) * (a - c)
  {
    if |xs| > 0 {
      var init := xs[..|xs| - 1];
      var x := xs[|xs| - 1];
      SumSqDevShift(init, a, c);
      ShiftStep(SumSqDev(xs, c), SumSqDev(xs, a), Sum(xs), |xs| as real,
                SumSqDev(init, c), SumSqDev(init, a), Sum(init), |init| as real, x, a, c);
    }
  }

  /** The induction step of the shift formula, over plain reals. */
  lemma ShiftStep(tc: real, ta: real, st: real, nt: real,
                  ic: real, ia: real, s: real, n: real, x: real, a: real, c: real)
    requires tc == ic + (x - c) * (x - c)
    requires ta == ia + (x - a) * (x - a)
    requires st == s + x && nt == n + 1.0
    requires ic == ia + 2.0 * (a - c) * (s - n * a) + n * (a - c) * (a - c)
    ensures tc == ta + 2.0 * (a - c) * (st - nt * a) + nt * (a - c) * (a - c)
  {
    assert (x - c) * (x - c) == (x - a) * (x - a) + 2.0 * (a - c) * (x - a) + (a - c) * (a - c);
    assert 2.0 * (a - c) * (s + x - (n + 1.0) * a) == 2.0 * (a - c) * (s - n * a) + 2.0 * (a - c) * (x - a);
    assert (n + 1.0) * (a - c) * (a - c) == n * (a - c) * (a - c) + (a - c) * (a - c);
  }

  /** Around the mean, the shift formula loses its linear term. */
  lemma {:induction false} SumSqDevAroundMean(xs: seq<real>, c: real)
    ensures SumSqDev(xs, c) == SumSqDev(xs, Mean(xs)) + (|xs| as real) * (Mean(xs) - c) * (Mean(xs) - c)
  {
    SumSqDevShift(xs, Mean(xs), c);
    MeanTimesCount(xs);
    DropCentredTerm(SumSqDev(xs, c), SumSqDev(xs, Mean(xs)), Sum(xs), |xs| as real, Mean(xs), c);
  }

  lemma DropCentredTerm(ic: real, ia: real, s: real, n: real, a: real, c: real)
    requires a * n == s
    requires ic == ia + 2.0 * (a - c) * (s - n * a) + n * (a - c) * (a - c)
    ensures ic == ia + n * (a - c) * (a - c)
  {
    assert s - n * a == 0.0;
  }

  /** Appending x adds its squared deviation from c. */
  lemma {:induction false} SumSqDevAppendAt(xs: seq<real>, x: real, ys: seq<real>, c: real)
    requires ys == xs + [x]
    ensures SumSqDev(ys, c) == SumSqDev(xs, c) + (x - c) * (x - c)
  {
    AppendParts(xs, x, ys);
  }

  /**
   The Welford spread recurrence: with m the old mean and m' the new one,
   appending x adds (x - m) (x - m') to the sum of squared deviations from
   the mean.
   */
  lemma {:induction false} SumSqDevAppend(xs: seq<real>, x: real, ys: seq<real>)
    requires ys == xs + [x]
    ensures SumSqDev(ys, Mean(ys)) == SumSqDev(xs, Mean(xs)) + (x - Mean(xs)) * (x - Mean(ys))
  {
    SpreadAboutNewMean(xs, x, ys);
    MeanShiftTerms(xs, x, ys);
  }

  /** The spread of xs + [x] about the new mean, split into the old spread and two correction terms. */
  lemma {:induction false} SpreadAboutNewMean(xs: seq<real>, x: real, ys: seq<real>)
    requires ys == xs + [x]
    ensures SumSqDev(ys, Mean(ys))
         == SumSqDev(xs, Mean(xs)) + (|xs| as real) * (Mean(xs) - Mean(ys)) * (Mean(xs) - Mean(ys))
            + (x - Mean(ys)) * (x - Mean(ys))
  {
    AppendAtNewMean(xs, x, ys);
    OldSpreadAboutNewMean(xs, ys);
  }

  lemma {:induction false} AppendAtNewMean(xs: seq<real>, x: real, ys: seq<real>)
    requires ys == xs + [x]
    ensures SumSqDev(ys, Mean(ys)) == SumSqDev(xs, Mean(ys)) + (x - Mean(ys)) * (x - Mean(ys))
  {
    SumSqDevAppendAt(xs, x, ys, Mean(ys));
  }

  lemma {:induction false} OldSpreadAboutNewMean(xs: seq<real>, ys: seq<real>)
    ensures SumSqDev(xs, Mean(ys))
         == SumSqDev(xs, Mean(xs)) + (|xs| as real) * (Mean(xs) - Mean(ys)) * (Mean(xs) - Mean(ys))
  {
    SumSqDevAroundMean(xs, Mean(ys));
  }

  /**
   The two terms the spread gains when its centre moves from m to m' and x
   is added make up exactly (x - m) (x - m').
   */
  lemma {:induction false} MeanShiftTerms(xs: seq<real>, x: real, ys: seq<real>)
    requires ys == xs + [x]
    ensures (|xs| as real) * (Mean(xs) - Mean(ys)) * (Mean(xs) - Mean(ys)) + (x - Mean(ys)) * (x - Mean(ys))
         == (x - Mean(xs)) * (x - Mean(ys))
  {
    assert |ys| == |xs| + 1;
    MeanAppendScaled(xs, x, ys);
    WelfordStepAlgebra(|xs| as real, |ys| as real, Mean(xs), Mean(ys), x);
  }

  /** The scalar identity behind the Welford spread update, with n' = n + 1 and n' m' = n m + x. */
  lemma WelfordStepAlgebra(n: real, n': real, m: real, m': real, x: real)
    requires n >= 0.0 && n' == n + 1.0 && m' * n' == m * n + x
    ensures n * (m - m') * (m - m') + (x - m') * (x - m') == (x - m) * (x - m')
  {
    MeanStepAlgebra(m, m', n, n', x);
    var delta := x - m;
    var q := delta / n';
    assert delta == n' * q;
    assert x - m' == n * q;
    assert m - m' == -q;
    calc {
      n * (m - m') * (m - m') + (x - m') * (x - m');
      n * q * q + (n * q) * (n * q);
      (n * q) * (n' * q);
      (x - m') * delta;
    }
  }

  lemma {:induction false} CoSumSnoc(xs: seq<real>, ys: seq<real>, x: real, y: real, cx: real, cy: real)
    requires |xs| == |ys|
    ensures CoSum(xs + [x], ys + [y], cx, cy) == CoSum(xs, ys, cx, cy) + (x - cx) * (y - cy)
  {
    assert (xs + [x])[..|xs|] == xs;
    assert (ys + [y])[..|ys|] == ys;
  }

  /** With exactly two samples the covariance is (x0 - x1)(y0 - y1) / 2. */
  lemma SampleCovTwo(x0: real, x1: real, y0: real, y1: real)
    ensures SampleCov([x0, x1], [y0, y1]) == (x0 - x1) * (y0 - y1) / 2.0
  {
    var xs := [x0, x1];
    var ys := [y0, y1];
    assert xs == [] + [x0] + [x1] && ys == [] + [y0] + [y1];
    SumSnoc([], x0);
    SumSnoc([x0], x1);
    SumSnoc([], y0);
    SumSnoc([y0], y1);
    var mx := (x0 + x1) / 2.0;
    var my := (y0 + y1) / 2.0;
    CoSumSnoc([], [], x0, y0, mx, my);
    CoSumSnoc([x0], [y0], x1, y1, mx, my);
    assert CoSum(xs, ys, mx, my) == (x0 - mx) * (y0 - my) + (x1 - mx) * (y1 - my);
    assert x0 - mx == (x0 - x1) / 2.0 && x1 - mx == -(x0 - x1) / 2.0;
    assert y0 - my == (y0 - y1) / 2.0 && y1 - my == -(y0 - y1) / 2.0;
  }

  /** The reals 0, 1, ..., n - 1: the values a channel uniform over n integers takes. */
  function Range(n: nat): (r: seq<real>)
    ensures |r| == n
    ensures forall i :: 0 <= i < n ==> r[i] == i as real
  {
    seq(n, i => i as real)
  }

  function SumSq(xs: seq<real>): (s: real)
  {
    SumSqDev(xs, 0.0)
  }

  lemma {:induction false} RangeSums(n: nat)
    ensures Sum(Range(n)) * 2.0 == (n as real) * ((n as real) - 1.0)
    ensures SumSq(Range(n)) * 6.0 == ((n as real) - 1.0) * (n as real) * (2.0 * (n as real) - 1.0)
  {
    if n == 0 {
      assert Range(0) == [];
    } else {
      var k := (n - 1) as real;
      var s0 := Sum(Range(n - 1));
      var q0 := SumSq(Range(n - 1));
      assert s0 * 2.0 == k * (k - 1.0) && q0 * 6.0 == (k - 1.0) * k * (2.0 * k - 1.0) by {
        RangeSums(n - 1);
      }
      assert Sum(Range(n)) == s0 + k && SumSq(Range(n)) == q0 + (k - 0.0) * (k - 0.0) by {
        assert Range(n)[..n - 1] == Range(n - 1);
      }
      RangeSumsStep(n as real, Sum(Range(n)), SumSq(Range(n)), k, s0, q0);
    }
  }

  lemma RangeSumsStep(m: real, st: real, qt: real, k: real, s: real, q: real)
    requires m == k + 1.0
    requires st == s + k && qt == q + (k - 0.0) * (k - 0.0)
    requires s * 2.0 == k * (k - 1.0)
    requires q * 6.0 == (k - 1.0) * k * (2.0 * k - 1.0)
    ensures st * 2.0 == m * (m - 1.0)
    ensures qt * 6.0 == (m - 1.0) * m * (2.0 * m - 1.0)
  {
    assert (k - 1.0) * k * (2.0 * k - 1.0) + 6.0 * k * k == k * (k + 1.0) * (2.0 * k + 1.0);
  }

  /** The mean of 0, ..., n - 1 is (n - 1) / 2. */
  lemma {:induction false} RangeMean(n: nat)
    requires n > 0
    ensures Mean(Range(n)) == ((n as real) - 1.0) / 2.0
  {
    RangeSums(n);
    HalfQuotient(Sum(Range(n)), n as real);
  }

  lemma HalfQuotient(s: real, n: real)
    requires n > 0.0 && s * 2.0 == n * (n - 1.0)
    ensures s / n == (n - 1.0) / 2.0
  {
    var h := (n - 1.0) / 2.0;
    assert s == n * h;
    MulDivCancel(h, n);
    assert s / n == (n * h) / n;
  }

  lemma MulDivCancel(a: real, n: real)
    requires n != 0.0
    ensures (n * a) / n == a
  {
  }

  /** The population variance of 0, ..., n - 1 is (n^2 - 1) / 12. */
  lemma {:induction false} RangeVariance(n: nat)
    requires n > 0
    ensures PopVariance(Range(n)) == ((n as real) * (n as real) - 1.0) / 12.0
  {
    RangeSums(n);
    RangeMean(n);
    var N := n as real;
    var m := (N - 1.0) / 2.0;
    SumSqDevShift(Range(n), 0.0, m);
    RangeVarianceAlgebra(N, Sum(Range(n)), SumSq(Range(n)), SumSqDev(Range(n), m));
  }

  lemma RangeVarianceAlgebra(n: real, s: real, q: real, v: real)
    requires n > 0.0
    requires s * 2.0 == n * (n - 1.0)
    requires q * 6.0 == (n - 1.0) * n * (2.0 * n - 1.0)
    requires var m := (n - 1.0) / 2.0; v == q + 2.0 * (0.0 - m) * (s - n * 0.0) + n * (0.0 - m) * (0.0 - m)
    ensures v / n == (n * n - 1.0) / 12.0
  {
    var m := (n - 1.0) / 2.0;
    assert s == n * m;
    assert v == q - n * m * m;
    assert v * 12.0 == 2.0 * (n - 1.0) * n * (2.0 * n - 1.0) - 3.0 * n * (n - 1.0) * (n - 1.0);
    assert v * 12.0 == n * (n * n - 1.0);
    var c := (n * n - 1.0) / 12.0;
    assert v == n * c;
    MulDivCancel(c, n);
    assert v / n == (n * c) / n;
  }
}
