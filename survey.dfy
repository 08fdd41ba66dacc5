/** The simple-random-sample estimators of `klase/Sampling.py` (class `PSU`):
    confidence tables, the ratio and the difference-regression estimates of
    the mean wage, and the grid scan for the narrowest bootstrap interval
    that still contains the sample mean.

    Sampling, `t.ppf`, square roots and the linear algebra of the least
    squares fit are oracles; the fit itself is the `ONK` model of
    `LeastSquares`, which the estimator object holds. */
module Survey {
  import opened Outcomes
  import opened Stats
  import opened Levels
  import opened Frames
  import opened LeastSquares
  import opened Resampling
  import Pearson

  // ------------------------------------------------- confidence intervals

  /** One row of `intervaliPoverenja`: the estimate, its standard error, the
      level `a` (the row is labelled "(1 - a)·100 %"), the two bounds, the
      width and the flag 'DA'/'NE'. */
  datatype ConfidenceRow = ConfidenceRow(estimate: real, stdev: real, level: real,
                                         lower: real, upper: real, width: real, contains: bool)

  /** The critical value `t.ppf(1 - a / 2, n - 1)`. */
  function Critical(a: real, n: int, tppf: (real, int) -> real): real
  {
    tppf(UpperTail(a), n - 1)
  }

  /** The row of one level with critical value `t`: the bounds lie `t·stdev`
      either side of the estimate, and the flag says whether `param` lies
      between them. */
  function RowAt(est: real, sd: real, a: real, t: real, param: real): (r: ConfidenceRow)
    ensures r.estimate == est && r.stdev == sd && r.level == a
    ensures r.upper - r.estimate == r.estimate - r.lower == t * sd
    ensures r.width == 2.0 * (t * sd)
    ensures 0.0 <= t * sd ==> r.lower <= r.estimate <= r.upper
    ensures r.contains <==> r.lower <= param <= r.upper
    ensures 0.0 <= t * sd ==> (r.contains <==> Abs(param - est) <= t * sd)
  {
    var lower := est - t * sd;
    var upper := est + t * sd;
    ConfidenceRow(est, sd, a, lower, upper, upper - lower, lower <= param <= upper)
  }

  /** The whole table: one row per level, in the order of `levels`. */
  function Table(est: real, sd: real, levels: seq<real>, n: int, param: real,
                 tppf: (real, int) -> real): (r: seq<ConfidenceRow>)
    ensures |r| == |levels|
    ensures forall i :: 0 <= i < |levels| ==> r[i] == RowAt(est, sd, levels[i], Critical(levels[i], n, tppf), param)
  {
    seq(|levels|, i requires 0 <= i < |levels| => RowAt(est, sd, levels[i], Critical(levels[i], n, tppf), param))
  }

  /** The loop of `intervaliPoverenja` over the levels, appending a row each
      time. */
  method ConfidenceTable(est: real, sd: real, levels: seq<real>, n: int, param: real,
                         tppf: (real, int) -> real) returns (rows: seq<ConfidenceRow>)
    ensures rows == Table(est, sd, levels, n, param, tppf)
  {
    rows := [];
    var i := 0;
    while i < |levels|
      invariant 0 <= i <= |levels|
      invariant rows == Table(est, sd, levels[..i], n, param, tppf)
    {
      var a := levels[i];
      var t := Critical(a, n, tppf);
      var lower := est - t * sd;
      var upper := est + t * sd;
      var row := ConfidenceRow(est, sd, a, lower, upper, upper - lower, lower <= param <= upper);
      assert row == RowAt(est, sd, a, t, param);
      assert levels[..i + 1] == levels[..i] + [a];
      assert Table(est, sd, levels[..i + 1], n, param, tppf) == Table(est, sd, levels[..i], n, param, tppf) + [row];
      rows := rows + [row];
      i := i + 1;
    }
    assert levels[..i] == levels;
  }

  // ------------------------------------------------------ ratio estimate

  /** The figures of `kolicnickoOcenjivanje` before any square root: the
      population and sample ratios, the mean and total estimates with their
      biases (the relative one only when the true mean is not 0), and the
      variances whose roots are the standard deviations. */
  datatype Ratio = Ratio(R: real, Ru: real, mean: real, bias: real, relBias: Option<real>,
                         total: real, totalBias: real, spread: real,
                         varTotal: real, varMean: real, varRatio: real)

  /** `np.square(Y - X * R).sum()`. */
  function ResidualSquares(Yp: seq<real>, Xp: seq<real>, R: real): (r: real)
    requires |Yp| == |Xp|
    ensures 0.0 <= r
  {
    var d := SquaredDeviations(Minus(Yp, Scale(R, Xp)), 0.0);
    SumNonNegative(d);
    Sum(d)
  }

  /** The two ratios of a ratio estimate: `R` and `Ru` turn the auxiliary
      totals of the population and of the sample into their wage totals. */
  ghost predicate RatioFactors(Yp: seq<real>, Xp: seq<real>, ys: seq<real>, xs: seq<real>, q: Ratio)
  {
    q.R * Sum(Xp) == Sum(Yp) && q.Ru * Sum(xs) == Sum(ys)
  }

  /** The estimates: the mean and total apply `Ru` to the population's
      auxiliary mean and total, the biases compare them with the true wage
      mean and total, and the relative bias is the bias in percent of the
      true mean, present only when that mean is not 0. */
  ghost predicate RatioEstimates(Yp: seq<real>, Xp: seq<real>, q: Ratio)
    requires |Yp| == |Xp| > 0
  {
    && q.mean == q.Ru * Mean(Xp) && q.total == q.Ru * Sum(Xp)
    && q.bias == q.mean - Mean(Yp) && q.totalBias == q.total - Sum(Yp)
    && (q.relBias.Some? <==> Mean(Yp) != 0.0)
    && (q.relBias.Some? ==> q.relBias.value * Mean(Yp) == 100.0 * q.bias)
  }

  /** The spread: the residual sum of squares about `R`, and the variance
      of the mean, that spread scaled by `(1 - f) / (n (N - 1))`. */
  ghost predicate RatioSpread(Yp: seq<real>, Xp: seq<real>, ys: seq<real>, f: real, q: Ratio)
    requires |Yp| == |Xp| > 1 && |ys| > 0
  {
    && q.spread == ResidualSquares(Yp, Xp, q.R)
    && q.varMean == MeanVariance(q.spread, f, |ys| as real, |Yp| as real)
  }

  /** The other two variances: of the total, and of the ratio, which
      divides by the square of the auxiliary mean. */
  ghost predicate RatioVarianceFigures(Yp: seq<real>, Xp: seq<real>, ys: seq<real>, f: real, q: Ratio)
    requires |Yp| == |Xp| > 1 && |ys| > 0 && Mean(Xp) != 0.0
  {
    && q.varTotal == TotalVariance(q.spread, f, |ys| as real, |Yp| as real)
    && q.varRatio == RatioVariance(q.spread, f, |ys| as real, |Yp| as real, Mean(Xp))
  }

  /** The ratio estimate of the mean and total of `Yp` from its auxiliary
      column `Xp`, the sample `ys`, `xs` and the sampling fraction `f`.  A
      zero auxiliary total, or a population of one row (`N - 1` divides),
      gives NaN or an infinity. */
  function RatioOf(Yp: seq<real>, Xp: seq<real>, ys: seq<real>, xs: seq<real>, f: real): (r: Result<Ratio>)
    requires |Yp| == |Xp| > 0 && |ys| == |xs| > 0
    ensures r.Failure? <==> Sum(Xp) == 0.0 || Sum(xs) == 0.0 || |Yp| == 1
    ensures r.Failure? ==> r.fault == NonFinite
    ensures r.Success? ==> RatioFactors(Yp, Xp, ys, xs, r.value)
    ensures r.Success? ==> RatioEstimates(Yp, Xp, r.value)
    ensures r.Success? ==> RatioSpread(Yp, Xp, ys, f, r.value)
    ensures r.Success? ==> Mean(Xp) != 0.0 && RatioVarianceFigures(Yp, Xp, ys, f, r.value)
  {
    if Sum(Xp) == 0.0 || Sum(xs) == 0.0 || |Yp| == 1 then Failure(NonFinite)
    else
      Success(Figures(Yp, Xp, ys, xs, f))
  }

  /** The figures themselves, once no total is 0 and the population has
      more than one row. */
  function Figures(Yp: seq<real>, Xp: seq<real>, ys: seq<real>, xs: seq<real>, f: real): (q: Ratio)
    requires |Yp| == |Xp| > 1 && |ys| == |xs| > 0 && Sum(Xp) != 0.0 && Sum(xs) != 0.0
    ensures RatioFactors(Yp, Xp, ys, xs, q)
    ensures RatioEstimates(Yp, Xp, q)
    ensures RatioSpread(Yp, Xp, ys, f, q)
    ensures Mean(Xp) != 0.0 && RatioVarianceFigures(Yp, Xp, ys, f, q)
  {
    var R := Quotient(Sum(Yp), Sum(Xp));
    var Ru := Quotient(Sum(ys), Sum(xs));
    var m := NonZeroMean(Xp);
    var e := Estimates(Yp, Xp, Ru);
    var s := ResidualSquares(Yp, Xp, R);
    var v := Variances(s, f, |ys| as real, |Yp| as real, m);
    Ratio(R, Ru, e.0, e.1, e.2, e.3, e.4, s, v.0, v.1, v.2)
  }

  /** The mean and total estimates with their biases, from the ratio `Ru`. */
  function Estimates(Yp: seq<real>, Xp: seq<real>, Ru: real): (e: (real, real, Option<real>, real, real))
    requires |Yp| == |Xp| > 0
    ensures e.0 == Ru * Mean(Xp) && e.3 == Ru * Sum(Xp)
    ensures e.1 == e.0 - Mean(Yp) && e.4 == e.3 - Sum(Yp)
    ensures (e.2.Some? <==> Mean(Yp) != 0.0) && (e.2.Some? ==> e.2.value * Mean(Yp) == 100.0 * e.1)
  {
    var mean := Ru * Mean(Xp);
    var total := Ru * Sum(Xp);
    (mean, mean - Mean(Yp), Percent(mean - Mean(Yp), Mean(Yp)), total, total - Sum(Yp))
  }

  /** The variances of the total, the mean and the ratio. */
  function Variances(s: real, f: real, n: real, N: real, m: real): (v: (real, real, real))
    requires 0.0 < n && 1.0 < N && m != 0.0
    ensures v == (TotalVariance(s, f, n, N), MeanVariance(s, f, n, N), RatioVariance(s, f, n, N, m))
  {
    (TotalVariance(s, f, n, N), MeanVariance(s, f, n, N), RatioVariance(s, f, n, N, m))
  }

  /** The mean of a column whose total is not 0, which is not 0 either. */
  function NonZeroMean(s: seq<real>): (m: real)
    requires |s| > 0 && Sum(s) != 0.0
    ensures m == Mean(s) && m != 0.0
  {
    Mean(s)
  }

  /** `a / b`. */
  function Quotient(a: real, b: real): (q: real)
    requires b != 0.0
    ensures q * b == a
  {
    a / b
  }

  /** `b / m * 100`, which is NaN or an infinity when `m` is 0. */
  function Percent(b: real, m: real): (r: Option<real>)
    ensures r.Some? <==> m != 0.0
    ensures r.Some? ==> r.value * m == 100.0 * b
  {
    if m == 0.0 then None else Some(b / m * 100.0)
  }

  /** `s·N²(1 - f) / (n(N - 1))`, the square of `SYt` (written as
      successive divisions, which is the same real number). */
  function TotalVariance(s: real, f: real, n: real, N: real): real
    requires 0.0 < n && 1.0 < N
  {
    s * (N * N * (1.0 - f)) / n / (N - 1.0)
  }

  /** `s(1 - f) / (n(N - 1))`, the square of `SYm`. */
  function MeanVariance(s: real, f: real, n: real, N: real): real
    requires 0.0 < n && 1.0 < N
  {
    s * (1.0 - f) / n / (N - 1.0)
  }

  /** `s(1 - f) / (n·X̄²(N - 1))`, the square of `SR`. */
  function RatioVariance(s: real, f: real, n: real, N: real, m: real): real
    requires 0.0 < n && 1.0 < N && m != 0.0
  {
    s * (1.0 - f) / n / m / m / (N - 1.0)
  }

  lemma ScaleQuotient(c: real, a: real, b: real)
    requires b != 0.0
    ensures c * a / b == c * (a / b)
  {
  }

  lemma SwapQuotients(a: real, b: real, c: real)
    requires b != 0.0 && c != 0.0
    ensures a / c / b == a / b / c
  {
  }

  lemma Unscale(x: real, m: real)
    requires m != 0.0
    ensures x / m / m * (m * m) == x
  {
    assert x / m / m * m == x / m;
    assert x / m * m == x;
    assert x / m / m * (m * m) == (x / m / m * m) * m;
  }

  lemma MulNonNegative(x: real, y: real)
    requires 0.0 <= x && 0.0 <= y
    ensures 0.0 <= x * y
  {
  }

  lemma DivNonNegative(x: real, d: real)
    requires 0.0 <= x && 0.0 < d
    ensures 0.0 <= x / d
  {
  }

  /** `SYt² = N²·SYm²`. */
  lemma TotalVarianceFactor(s: real, f: real, n: real, N: real)
    requires 0.0 < n && 1.0 < N
    ensures TotalVariance(s, f, n, N) == N * N * MeanVariance(s, f, n, N)
  {
    var c := N * N;
    var a := s * (1.0 - f);
    assert s * (N * N * (1.0 - f)) == c * a;
    ScaleQuotient(c, a, n);
    ScaleQuotient(c, a / n, N - 1.0);
    assert TotalVariance(s, f, n, N) == c * a / n / (N - 1.0);
  }

  /** `SR²·X̄² = SYm²`. */
  lemma RatioVarianceFactor(s: real, f: real, n: real, N: real, m: real)
    requires 0.0 < n && 1.0 < N && m != 0.0
    ensures RatioVariance(s, f, n, N, m) * (m * m) == MeanVariance(s, f, n, N)
  {
    var x := s * (1.0 - f) / n;
    SwapQuotients(x / m, N - 1.0, m);
    SwapQuotients(x, N - 1.0, m);
    Unscale(x / (N - 1.0), m);
  }

  /** With `s >= 0` and `f <= 1` the variance of the mean is not negative. */
  lemma MeanVarianceNonNegative(s: real, f: real, n: real, N: real)
    requires 0.0 < n && 1.0 < N && 0.0 <= s && f <= 1.0
    ensures 0.0 <= MeanVariance(s, f, n, N)
  {
    MulNonNegative(s, 1.0 - f);
    DivNonNegative(s * (1.0 - f), n);
    DivNonNegative(s * (1.0 - f) / n, N - 1.0);
  }

  /** `N · (Ru · (S / N)) = Ru · S`. */
  lemma MeanTimesCount(Ru: real, S: real, N: real)
    requires N != 0.0
    ensures N * (Ru * (S / N)) == Ru * S
  {
    assert N * (S / N) == S;
    assert N * (Ru * (S / N)) == Ru * (N * (S / N));
  }

  /** The total estimate is `N` times the mean estimate, and so is its bias. */
  lemma RatioTotals(Yp: seq<real>, Xp: seq<real>, q: Ratio)
    requires |Yp| == |Xp| > 0 && RatioEstimates(Yp, Xp, q)
    ensures q.total == |Yp| as real * q.mean
    ensures q.totalBias == |Yp| as real * q.bias
  {
    var N := |Yp| as real;
    MeanTimesCount(q.Ru, Sum(Xp), N);
    MeanTimesCount(1.0, Sum(Yp), N);
    assert N * (q.mean - Mean(Yp)) == N * q.mean - N * Mean(Yp);
  }

  /** The variances of the total and of the ratio are rescalings of the
      variance of the mean, and none is negative when `0 <= f <= 1`. */
  lemma RatioVariances(Yp: seq<real>, Xp: seq<real>, ys: seq<real>, f: real, q: Ratio)
    requires |Yp| == |Xp| > 1 && |ys| > 0 && Mean(Xp) != 0.0 && 0.0 <= f <= 1.0
    requires RatioSpread(Yp, Xp, ys, f, q) && RatioVarianceFigures(Yp, Xp, ys, f, q)
    ensures q.varTotal == |Yp| as real * |Yp| as real * q.varMean
    ensures q.varRatio * (Mean(Xp) * Mean(Xp)) == q.varMean
    ensures 0.0 <= q.varMean
  {
    TotalVarianceFactor(q.spread, f, |ys| as real, |Yp| as real);
    RatioVarianceFactor(q.spread, f, |ys| as real, |Yp| as real, Mean(Xp));
    MeanVarianceNonNegative(q.spread, f, |ys| as real, |Yp| as real);
  }

  /** Residuals of an exact proportion vanish. */
  lemma ZeroResiduals(Xp: seq<real>, c: real)
    ensures ResidualSquares(Scale(c, Xp), Xp, c) == 0.0
  {
    var res := Minus(Scale(c, Xp), Scale(c, Xp));
    assert forall i :: 0 <= i < |res| ==> res[i] == 0.0;
    SumBounds(SquaredDeviations(res, 0.0), 0.0, 0.0);
  }

  /** Scaling every value scales the mean. */
  lemma MeanScale(c: real, s: seq<real>)
    requires |s| > 0
    ensures Mean(Scale(c, s)) == c * Mean(s)
  {
    SumScale(c, s);
    ScaleQuotient(c, Sum(s), |s| as real);
  }

  /** A population whose wage is exactly `c` times the auxiliary variable,
      sampled at the positions `rows`: both ratios are `c`, both biases are
      0, and so are the residual sum of squares and the variance. */
  lemma RatioProportional(Xp: seq<real>, rows: seq<nat>, c: real, f: real)
    requires |Xp| > 1 && |rows| > 0 && forall k :: 0 <= k < |rows| ==> rows[k] < |Xp|
    requires Sum(Xp) != 0.0 && Sum(Pick(Xp, rows)) != 0.0
    ensures var r := RatioOf(Scale(c, Xp), Xp, Pick(Scale(c, Xp), rows), Pick(Xp, rows), f);
      r.Success? && r.value.R == c && r.value.Ru == c && r.value.bias == 0.0 &&
      r.value.totalBias == 0.0 && r.value.spread == 0.0 && r.value.varMean == 0.0
  {
    var r := RatioOf(Scale(c, Xp), Xp, Pick(Scale(c, Xp), rows), Pick(Xp, rows), f);
    ProportionalFactors(Xp, rows, c, r.value);
    ScaledBiases(Xp, c, r.value);
    ScaledSpread(Xp, Pick(Scale(c, Xp), rows), c, f, r.value);
  }

  /** Both ratios of a proportional population and its sample are `c`. */
  lemma ProportionalFactors(Xp: seq<real>, rows: seq<nat>, c: real, q: Ratio)
    requires forall k :: 0 <= k < |rows| ==> rows[k] < |Xp|
    requires Sum(Xp) != 0.0 && Sum(Pick(Xp, rows)) != 0.0
    requires RatioFactors(Scale(c, Xp), Xp, Pick(Scale(c, Xp), rows), Pick(Xp, rows), q)
    ensures q.R == c && q.Ru == c
  {
    PickScale(Xp, rows, c);
    PopulationFactor(Scale(c, Xp), Xp, Pick(Scale(c, Xp), rows), Pick(Xp, rows), c, q);
    SampleFactor(Scale(c, Xp), Xp, Pick(Scale(c, Xp), rows), Pick(Xp, rows), c, q);
  }

  /** Sampling a scaled column is scaling the sampled column. */
  lemma PickScale(Xp: seq<real>, rows: seq<nat>, c: real)
    requires forall k :: 0 <= k < |rows| ==> rows[k] < |Xp|
    ensures Pick(Scale(c, Xp), rows) == Scale(c, Pick(Xp, rows))
  {
    var ys, xs := Pick(Scale(c, Xp), rows), Pick(Xp, rows);
    assert forall k :: 0 <= k < |rows| ==> ys[k] == Scale(c, xs)[k];
  }

  /** The population ratio of a wage column `c` times the auxiliary one
      is `c`, whenever the auxiliary total is not 0. */
  lemma PopulationFactor(Yp: seq<real>, Xp: seq<real>, ys: seq<real>, xs: seq<real>, c: real, q: Ratio)
    requires Sum(Xp) != 0.0 && Yp == Scale(c, Xp) && RatioFactors(Yp, Xp, ys, xs, q)
    ensures q.R == c
  {
    SumScale(c, Xp);
    Cancel(q.R, Sum(Xp), Sum(Yp), c);
  }

  /** The same for the sample ratio. */
  lemma SampleFactor(Yp: seq<real>, Xp: seq<real>, ys: seq<real>, xs: seq<real>, c: real, q: Ratio)
    requires Sum(xs) != 0.0 && ys == Scale(c, xs) && RatioFactors(Yp, Xp, ys, xs, q)
    ensures q.Ru == c
  {
    SumScale(c, xs);
    Cancel(q.Ru, Sum(xs), Sum(ys), c);
  }

  /** With the ratio of the sample equal to `c`, the estimates of a
      proportional population have no bias. */
  lemma ScaledBiases(Xp: seq<real>, c: real, q: Ratio)
    requires |Xp| > 0 && RatioEstimates(Scale(c, Xp), Xp, q) && q.Ru == c
    ensures q.bias == 0.0 && q.totalBias == 0.0
  {
    SumScale(c, Xp);
    MeanScale(c, Xp);
  }

  /** With the population ratio equal to `c`, the residuals of a
      proportional population vanish, and so does the variance. */
  lemma ScaledSpread(Xp: seq<real>, ys: seq<real>, c: real, f: real, q: Ratio)
    requires |Xp| > 1 && |ys| > 0 && RatioSpread(Scale(c, Xp), Xp, ys, f, q) && q.R == c
    ensures q.spread == 0.0 && q.varMean == 0.0
  {
    ZeroResiduals(Xp, c);
    NoSpreadNoVariance(f, |ys| as real, |Xp| as real);
  }

  /** A factor that takes a non-zero number to `c` times it is `c`. */
  lemma Cancel(R: real, S: real, Y: real, c: real)
    requires S != 0.0 && R * S == Y && Y == c * S
    ensures R == c
  {
    assert (R - c) * S == 0.0;
  }

  lemma NoSpreadNoVariance(f: real, n: real, N: real)
    requires 0.0 < n && 1.0 < N
    ensures MeanVariance(0.0, f, n, N) == 0.0
  {
    assert 0.0 * (1.0 - f) / n == 0.0;
    ZeroQuotient(N - 1.0);
  }

  lemma ZeroQuotient(d: real)
    requires d != 0.0
    ensures 0.0 / d == 0.0
  {
  }

  // ------------------------------------------------ regression estimate

  /** `ym + (Xm - xm) @ b`: the sample mean corrected by the difference of
      the population and sample column means, weighted by the coefficients. */
  function RegressionMean(ym: real, pop: Frame, smp: Frame, coef: Labelled): real
    requires WellFormed(pop) && WellFormed(smp) && pop.rows > 0 && smp.rows > 0
    requires Names(pop) == Names(smp) && Consistent(coef) && SameLabels(smp, coef)
  {
    ym + Dot(Minus(ColumnMeans(pop), ColumnMeans(smp)), Align(smp, coef))
  }

  /** Frames with the same labels in the same order align the coefficients
      alike. */
  lemma SameNamesAlign(f: Frame, g: Frame, coef: Labelled)
    requires Names(f) == Names(g) && Consistent(coef)
    ensures SameLabels(f, coef) <==> SameLabels(g, coef)
    ensures SameLabels(f, coef) ==> Align(f, coef) == Align(g, coef)
  {
    if SameLabels(f, coef) {
      forall j | 0 <= j < |f.columns|
        ensures f.columns[j].name == g.columns[j].name
      {
        assert Names(f)[j] == Names(g)[j];
      }
    }
  }

  /** The regression estimate is the sample mean plus the difference of the
      mean predictions over the population and over the sample. */
  lemma RegressionShift(ym: real, pop: Frame, smp: Frame, coef: Labelled)
    requires WellFormed(pop) && WellFormed(smp) && pop.rows > 0 && smp.rows > 0
    requires Names(pop) == Names(smp) && Consistent(coef) && SameLabels(smp, coef)
    ensures SameLabels(pop, coef)
    ensures PredictOn(pop, coef, true, false).Success? && PredictOn(smp, coef, true, false).Success?
    ensures RegressionMean(ym, pop, smp, coef) ==
      ym + PredictOn(pop, coef, true, false).value.value - PredictOn(smp, coef, true, false).value.value
  {
    SameNamesAlign(pop, smp, coef);
    var b := Align(smp, coef);
    DotMinus(ColumnMeans(pop), ColumnMeans(smp), b);
    PredictMeanAtColumnMeans(pop, coef, false);
    PredictMeanAtColumnMeans(smp, coef, false);
  }

  /** When the sample reproduces the population column means, the
      regression estimate is the plain sample mean. */
  lemma RegressionAtMatchingMeans(ym: real, pop: Frame, smp: Frame, coef: Labelled)
    requires WellFormed(pop) && WellFormed(smp) && pop.rows > 0 && smp.rows > 0
    requires Names(pop) == Names(smp) && Consistent(coef) && SameLabels(smp, coef)
    requires ColumnMeans(pop) == ColumnMeans(smp)
    ensures RegressionMean(ym, pop, smp, coef) == ym
  {
    var d := Minus(ColumnMeans(pop), ColumnMeans(smp));
    assert forall j :: 0 <= j < |d| ==> d[j] == 0.0;
    DotZeroLeft(d, Align(smp, coef));
  }

  /** `predict(x, total=True) * N / n`: the sample's predicted total
      expanded to the population, which is `N` times the sample's mean
      prediction. */
  lemma ExpandedTotal(smp: Frame, coef: Labelled, N: nat)
    requires WellFormed(smp) && Consistent(coef) && SameLabels(smp, coef) && smp.rows > 0
    ensures PredictOn(smp, coef, false, true).Success? && PredictOn(smp, coef, true, false).Success?
    ensures Expanded(PredictOn(smp, coef, false, true).value.value, N, smp.rows) ==
      (N as real) * PredictOn(smp, coef, true, false).value.value
  {
    PredictTotalIsRowsTimesMean(smp, coef);
    var t := PredictOn(smp, coef, false, true).value.value;
    var m := PredictOn(smp, coef, true, false).value.value;
    Expand(t, m, N, smp.rows);
  }

  /** A sample total `t` over `n` rows expanded to `N` rows: `t * N / n`. */
  function Expanded(t: real, N: nat, n: nat): real
    requires n > 0
  {
    t * (N as real) / (n as real)
  }

  lemma Expand(t: real, m: real, N: nat, rows: nat)
    requires rows > 0 && t == (rows as real) * m
    ensures Expanded(t, N, rows) == (N as real) * m
  {
    var n := rows as real;
    var k := N as real;
    assert t * k == k * t;
    ScaleQuotient(k, t, n);
    assert t / n == m;
  }

  // ------------------------------------------------------- interval scan

  /** The number of levels `minimalni_interval` tries. */
  const GridSize: nat := 500

  /** `np.linspace(0.001, 1, 500)[::-1][i]`: from 1 down to 0.001 in equal
      steps. */
  function Grid(i: nat): real
    requires i < GridSize
  {
    0.001 + (499 - i) as real * (0.999 / 499.0)
  }

  /** The grid starts at 1, ends at 0.001, and falls strictly, so every
      point is a valid level. */
  lemma GridShape(i: nat, j: nat)
    requires i < j < GridSize
    ensures Grid(0) == 1.0 && Grid(GridSize - 1) == 0.001
    ensures Grid(j) < Grid(i)
    ensures 0.0 < Grid(j) && Grid(i) <= 1.0 && InRange(Grid(i)) && InRange(Grid(j))
  {
  }

  /** Whether the bootstrap interval of level `a` over `means` contains
      `target`. */
  predicate Covers(means: seq<real>, a: real, target: real)
  {
    var rows := IntervalRows(means, [a]);
    rows.Success? && |rows.value| > 0 && rows.value[0].lower <= target <= rows.value[0].upper
  }

  /** Level `i` of the grid is the first, scanning from the widest level
      down, whose interval contains `target`. */
  predicate FirstCover(means: seq<real>, i: nat, target: real)
    requires i < GridSize
  {
    Covers(means, Grid(i), target) && NoneCovers(means, i, target)
  }

  /** None of the first `i` levels of the grid covers `target`. */
  predicate NoneCovers(means: seq<real>, i: nat, target: real)
    requires i <= GridSize
  {
    NoneBefore(Hits(means, target), i)
  }

  /** Which grid levels cover `target`. */
  function Hits(means: seq<real>, target: real): nat -> bool
  {
    (j: nat) => j < GridSize && Covers(means, Grid(j), target)
  }

  /** `hit` tells, for every grid level, whether its interval covers
      `target`. */
  ghost predicate Agrees(hit: nat -> bool, means: seq<real>, target: real)
  {
    forall j: nat {:trigger Covers(means, Grid(j), target)} :: j < GridSize ==> (hit(j) <==> Covers(means, Grid(j), target))
  }

  lemma HitsAgree(means: seq<real>, target: real)
    ensures Agrees(Hits(means, target), means, target)
  {
  }

  /** No index below `i` is a hit, checked one index at a time. */
  predicate NoneBefore(hit: nat -> bool, i: nat)
    decreases i
  {
    i == 0 || (NoneBefore(hit, i - 1) && !hit(i - 1))
  }

  lemma {:induction false} NoneBeforeAll(hit: nat -> bool, i: nat)
    ensures NoneBefore(hit, i) <==> forall j :: 0 <= j < i ==> !hit(j)
    decreases i
  {
    if i > 0 {
      NoneBeforeAll(hit, i - 1);
    }
  }

  /** The first covering level is the largest covering level of the grid,
      so `1 - a` is the narrowest interval that still contains the target. */
  lemma FirstCoverIsLargest(means: seq<real>, i: nat, target: real, j: nat)
    requires i < GridSize && j < GridSize && FirstCover(means, i, target)
    requires Grid(i) < Grid(j)
    ensures !Covers(means, Grid(j), target)
  {
    assert j < i by {
      if i < j {
        GridShape(i, j);
      }
    }
    NoneBeforeAll(Hits(means, target), i);
    assert !Hits(means, target)(j);
  }

  /** The interval of one level in [0, 1]: a row when there are means to
      work on, NaN bounds (no containment) when there are none. */
  lemma SingleLevel(x: seq<real>, a: real)
    requires InRange(a)
    ensures |x| == 0 ==> IntervalRows(x, [a]) == Failure(NonFinite)
    ensures |x| > 0 ==> IntervalRows(x, [a]) == Success([LevelBounds(x, a).value])
  {
    var rs := LevelResults(x, [a]);
    assert rs[0] == LevelBounds(x, a);
    if |x| == 0 {
      assert rs[0] == Failure(NonFinite);
    } else {
      IntervalRowsSucceed(x, [a]);
      var v := IntervalRows(x, [a]).value;
      assert v[0] == LevelBounds(x, a).value;
      assert v == [LevelBounds(x, a).value];
    }
  }

  /** Sorting keeps every level in range. */
  lemma SortInRange(s: seq<real>)
    requires AllInRange(s)
    ensures AllInRange(Sort(s))
  {
    var r := Sort(s);
    forall i | 0 <= i < |r|
      ensures InRange(r[i])
    {
      assert r[i] in multiset(r);
      assert r[i] in multiset(s);
    }
  }

  /** A sampler without replacement: `m` distinct positions below `N`. */
  ghost predicate Picks(pick: (nat, nat, int) -> seq<nat>)
  {
    forall N: nat, m: nat, seed: int :: m <= N ==>
      |pick(N, m, seed)| == m &&
      (forall k :: 0 <= k < m ==> pick(N, m, seed)[k] < N) &&
      (forall k, l :: 0 <= k < l < m ==> pick(N, m, seed)[k] != pick(N, m, seed)[l])
  }

  // -------------------------------------------------------- the sample

  /** What `PSU.__init__` keeps: the positions drawn, the population and
      sample design matrices, and the population and sample wages. */
  datatype Sample = Sample(rows: seq<nat>, X: Frame, x: Frame, Y: seq<real>, y: seq<real>)

  /** A sample of `data` without replacement: distinct rows, design matrices
      over the population and over the drawn rows, and the wages of the
      drawn rows. */
  ghost predicate Drawn(data: Frame, s: Sample)
  {
    && WellFormed(data) && 0 < |s.rows| <= data.rows
    && (forall k :: 0 <= k < |s.rows| ==> s.rows[k] < data.rows)
    && (forall k, l :: 0 <= k < l < |s.rows| ==> s.rows[k] != s.rows[l])
    && WellFormed(s.X) && s.X.rows == data.rows && WellFormed(s.x) && s.x.rows == |s.rows|
    && Lookup(data, Target) == Success(s.Y) && |s.Y| == data.rows && s.y == Pick(s.Y, s.rows)
  }

  /** A draw stays a draw when its design matrices are replaced by others
      of the same shapes. */
  lemma Redesigned(data: Frame, s: Sample, X: Frame, x: Frame)
    requires Drawn(data, s)
    requires WellFormed(X) && X.rows == data.rows && WellFormed(x) && x.rows == |s.rows|
    ensures Drawn(data, s.(X := X, x := x))
  {
  }

  /** The design matrices of `__init__`: without categories the given one
      and its drawn rows; with them, each passed through `vestacke` of the
      same model, where an encoding that completed no category leaves the
      model's frame as it was (nothing for the first call, the population's
      for the second). */
  function Designs(design: Frame, rows: seq<nat>, kategorije: Option<seq<string>>, show: real -> string)
    : (r: Result<(Option<Frame>, Option<Frame>)>)
    requires WellFormed(design) && forall k :: 0 <= k < |rows| ==> rows[k] < design.rows
    ensures kategorije.None? ==> r == Success((Some(design), Some(Take(design, rows))))
    ensures kategorije.Some? && r.Success? ==>
      (r.value.0.Some? <==> |kategorije.value| > 0) && (r.value.1.Some? <==> |kategorije.value| > 0)
    ensures kategorije.Some? && r.Success? && |kategorije.value| > 0 ==>
      r.value.0 == Some(EncodeList(design, kategorije, show).frame) &&
      r.value.1 == Some(EncodeList(Take(design, rows), kategorije, show).frame)
    ensures r.Success? && r.value.0.Some? ==> WellFormed(r.value.0.value) && r.value.0.value.rows == design.rows
    ensures r.Success? && r.value.1.Some? ==> WellFormed(r.value.1.value) && r.value.1.value.rows == |rows|
  {
    if kategorije.None? then Success((Some(design), Some(Take(design, rows))))
    else
      var e1 := EncodeList(design, kategorije, show);
      var e2 := EncodeList(Take(design, rows), kategorije, show);
      EncodeListWellFormed(design, kategorije, show);
      EncodeListWellFormed(Take(design, rows), kategorije, show);
      if e1.fault.Some? then Failure(e1.fault.value)
      else if e2.fault.Some? then Failure(e2.fault.value)
      else
        var X := if e1.done > 0 then Some(e1.frame) else None;
        Success((X, if e2.done > 0 then Some(e2.frame) else X))
  }

  /** `PSU.__init__` on the population `data` and design `design` (sharing
      its rows): `n / N` divides first, then the draw of `size` rows by the
      sampler `pick`, the levels of `ONK(alfa)`, the design matrices, the
      wage column, and the means, of which the design's must exist and the
      sample wages' must not be NaN. */
  function Setup(data: Frame, design: Frame, size: int, kategorije: Option<seq<string>>, levels: seq<real>,
                 seed: int, pick: (nat, nat, int) -> seq<nat>, show: real -> string): (r: Result<Sample>)
    requires WellFormed(data) && WellFormed(design) && design.rows == data.rows && Picks(pick)
    ensures data.rows == 0 ==> r == Failure(ZeroDivision)
    ensures 0 < data.rows && size < 0 ==> r == Failure(NegativeSize)
    ensures 0 < data.rows < size ==> r == Failure(SampleTooLarge)
    ensures 0 <= size <= data.rows && 0 < data.rows && !AllInRange(levels) ==> r == Failure(LevelOutOfRange)
    ensures 0 <= size <= data.rows && 0 < data.rows && AllInRange(levels) ==>
      r == Draw(data, design, pick(data.rows, size, seed), kategorije, show)
    ensures r.Success? ==> Drawn(data, r.value) && |r.value.rows| == size && AllInRange(levels)
  {
    var N := data.rows;
    LevelsAccepted(levels);
    if N == 0 then Failure(ZeroDivision)
    else if size < 0 then Failure(NegativeSize)
    else if size > N then Failure(SampleTooLarge)
    else if Normalise(Many(levels)).Failure? then Failure(LevelOutOfRange)
    else Draw(data, design, pick(N, size, seed), kategorije, show)
  }

  /** The part of `__init__` after the draw of `rows`. */
  function Draw(data: Frame, design: Frame, rows: seq<nat>, kategorije: Option<seq<string>>, show: real -> string)
    : (r: Result<Sample>)
    requires WellFormed(data) && WellFormed(design) && design.rows == data.rows
    requires forall k :: 0 <= k < |rows| ==> rows[k] < data.rows
    ensures var d := Designs(design, rows, kategorije, show);
      && (d.Failure? ==> r == Failure(d.fault))
      && (d.Success? && Target !in Names(data) ==> r == Failure(MissingColumn(Target)))
      && (d.Success? && Target in Names(data) && (d.value.0.None? || d.value.1.None?) ==> r == Failure(NoneAttribute))
      && (d.Success? && Target in Names(data) && d.value.0.Some? && d.value.1.Some? && |rows| == 0 ==>
          r == Failure(NonFinite))
    ensures r.Success? ==> r.value.rows == rows && 0 < |rows|
    ensures r.Success? ==> WellFormed(r.value.X) && r.value.X.rows == data.rows
    ensures r.Success? ==> WellFormed(r.value.x) && r.value.x.rows == |rows|
    ensures r.Success? ==> Lookup(data, Target) == Success(r.value.Y) && |r.value.Y| == data.rows
    ensures r.Success? ==> r.value.y == Pick(r.value.Y, rows)
    ensures r.Success? && kategorije.None? ==> r.value.X == design && r.value.x == Take(design, rows)
    ensures r.Success? && kategorije.Some? ==>
      r.value.X == EncodeList(design, kategorije, show).frame &&
      r.value.x == EncodeList(Take(design, rows), kategorije, show).frame
  {
    var d := Designs(design, rows, kategorije, show);
    if d.Failure? then Failure(d.fault)
    else
      var Y := Lookup(data, Target);
      if Y.Failure? then Failure(Y.fault)
      else if d.value.0.None? || d.value.1.None? then Failure(NoneAttribute)
      else if |rows| == 0 then Failure(NonFinite)
      else
        LookupLength(data, Target);
        Success(Sample(rows, d.value.0.value, d.value.1.value, Y.value, Pick(Y.value, rows)))
  }

  /** The levels `ONK(alfa)` accepts are those in [0, 1]. */
  lemma LevelsAccepted(levels: seq<real>)
    ensures Normalise(Many(levels)).Failure? <==> !AllInRange(levels)
  {
    if !AllInRange(levels) {
      var i :| 0 <= i < |levels| && !InRange(levels[i]);
      assert levels[i] in Supplied(Many(levels));
    }
  }

  // ------------------------------------------- regression standard error

  /** `sum(np.square(y - Ym)) / (n - 1)`: the squared deviations of the
      sample wages from the POPULATION mean, over `n - 1`. */
  function WageSpread(ys: seq<real>, Ym: real): (r: real)
    requires |ys| > 1
    ensures 0.0 <= r
  {
    var d := SquaredDeviations(ys, Ym);
    SumNonNegative(d);
    Sum(d) / (|ys| - 1) as real
  }

  /** `x.std() > 0` for a column of the sample design: it has rows and its
      terms are not all equal (one row gives NaN, which is not above 0). */
  predicate Varies(cells: seq<real>)
  {
    |cells| > 0 && Dot(Pearson.Centered(cells), Pearson.Centered(cells)) != 0.0
  }

  /** `x.loc[:, x.std() > 0].apply(lambda col: col.corr(y))`, the NaN
      entries left out as `Sylrs.mean()` skips them: the correlation with
      the wages of every column that varies, in column order.  Every
      correlation is a number in [-1, 1]. */
  function SampleCorrelations(cs: seq<Column>, ys: seq<real>, sqrt: real -> real): (r: seq<real>)
    requires forall j :: 0 <= j < |cs| ==> |cs[j].cells| == |ys|
    ensures |r| <= |cs|
    ensures IsSqrt(sqrt) ==> forall k :: 0 <= k < |r| ==> -1.0 <= r[k] <= 1.0
  {
    if |cs| == 0 then []
    else
      var c := Pearson.Correlation(cs[0].cells, ys, sqrt);
      Pearson.CorrelationBounded(cs[0].cells, ys, sqrt);
      (if Varies(cs[0].cells) && c.Some? then [c.value] else []) + SampleCorrelations(cs[1..], ys, sqrt)
  }

  /** There is a correlation exactly when the wages vary and so does some
      column: a varying column's correlation is NaN only for constant
      wages, which make every one NaN. */
  lemma {:induction false} CorrelationsDefined(cs: seq<Column>, ys: seq<real>, sqrt: real -> real)
    requires forall j :: 0 <= j < |cs| ==> |cs[j].cells| == |ys|
    requires IsSqrt(sqrt)
    ensures |SampleCorrelations(cs, ys, sqrt)| > 0 <==>
      Varies(ys) && exists j :: 0 <= j < |cs| && Varies(cs[j].cells)
    decreases |cs|
  {
    if |cs| > 0 {
      CorrelationsDefined(cs[1..], ys, sqrt);
      if Varies(ys) && exists j :: 0 <= j < |cs| && Varies(cs[j].cells) {
        var j :| 0 <= j < |cs| && Varies(cs[j].cells);
        if j > 0 {
          assert cs[1..][j - 1] == cs[j];
        }
      }
      if exists j :: 1 <= j < |cs| && Varies(cs[j].cells) {
        var j :| 1 <= j < |cs| && Varies(cs[j].cells);
        assert cs[1..][j - 1] == cs[j];
      }
    }
  }

  /** The population design takes the model's fit: no category column
      and a regular X'X. */
  predicate PopulationFits(X: Frame, Y: seq<real>, fitter: (Frame, seq<real>) -> Option<Estimates>)
  {
    !HasCategory(X) && fitter(WithConst(X), Y).Some?
  }

  /** The first fault of the two fits of `regresionoOcenjivanje`, each with
      the intercept and no category list: a category column makes `fit`
      iterate over `None`, and a singular X'X raises. */
  function FitFault(X: Frame, x: Frame, Y: seq<real>, y: seq<real>,
                    fitter: (Frame, seq<real>) -> Option<Estimates>): (r: Option<Fault>)
    ensures r.None? <==> PopulationFits(X, Y, fitter) && PopulationFits(x, y, fitter)
    ensures r.Some? ==> r.value == NotIterable || r.value == Singular
  {
    if HasCategory(X) then Some(NotIterable)
    else if fitter(WithConst(X), Y).None? then Some(Singular)
    else if HasCategory(x) then Some(NotIterable)
    else if fitter(WithConst(x), y).None? then Some(Singular)
    else None
  }

  /** `np.sqrt((1 - rho**2) * sy * ((1 - f) / n))`, one term per correlation. */
  function Deviations(rho: seq<real>, sy: real, f: real, n: nat, sqrt: real -> real): (r: seq<real>)
    requires n > 0
    ensures |r| == |rho|
    ensures forall j :: 0 <= j < |rho| ==> r[j] == sqrt(Shrunk(rho[j], sy, f, n))
  {
    seq(|rho|, j requires 0 <= j < |rho| => sqrt(Shrunk(rho[j], sy, f, n)))
  }

  /** The variance `sy · (1 - f) / n` of the plain sample mean, shrunk by
      `1 - rho²`. */
  function Shrunk(rho: real, sy: real, f: real, n: nat): real
    requires n > 0
  {
    (1.0 - rho * rho) * sy * ((1.0 - f) / (n as real))
  }

  /** `Sylrs.mean()`, given the correlations `rho` of the sample's
      non-constant design columns with the sample wages.  One drawn row
      (`n - 1` divides) or no such column (the mean of nothing) gives NaN. */
  function RegressionDeviation(ys: seq<real>, Ym: real, rho: seq<real>, f: real, sqrt: real -> real)
    : (r: Result<real>)
    ensures r.Failure? <==> |ys| <= 1 || |rho| == 0
    ensures r.Failure? ==> r.fault == NonFinite
    ensures r.Success? ==> r.value == Mean(Deviations(rho, WageSpread(ys, Ym), f, |ys|, sqrt))
  {
    if |ys| <= 1 || |rho| == 0 then Failure(NonFinite)
    else Success(Mean(Deviations(rho, WageSpread(ys, Ym), f, |ys|, sqrt)))
  }

  /** A square root is non-negative and grows with its argument. */
  lemma SqrtMonotone(sqrt: real -> real, a: real, b: real)
    requires IsSqrt(sqrt) && 0.0 <= a <= b
    ensures 0.0 <= sqrt(a) <= sqrt(b)
  {
    var u, v := sqrt(a), sqrt(b);
    assert (v - u) * (v + u) == b - a;
    if 0.0 < v + u {
      assert v - u == (b - a) / (v + u);
      DivNonNegative(b - a, v + u);
    }
  }

  /** With correlations in [-1, 1], the regression standard error lies
      between 0 and the standard error `sqrt(sy (1 - f) / n)` of the plain
      sample mean: the auxiliary columns never make the estimate less
      precise. */
  lemma RegressionNoWorse(ys: seq<real>, Ym: real, rho: seq<real>, f: real, sqrt: real -> real)
    requires IsSqrt(sqrt) && 0.0 <= f <= 1.0
    requires forall j :: 0 <= j < |rho| ==> -1.0 <= rho[j] <= 1.0
    ensures RegressionDeviation(ys, Ym, rho, f, sqrt).Success? ==>
      0.0 <= RegressionDeviation(ys, Ym, rho, f, sqrt).value <=
      sqrt(WageSpread(ys, Ym) * ((1.0 - f) / (|ys| as real)))
  {
    if |ys| > 1 && |rho| > 0 {
      var sy := WageSpread(ys, Ym);
      var c := (1.0 - f) / (|ys| as real);
      var top := sy * c;
      var ds := Deviations(rho, sy, f, |ys|, sqrt);
      assert 0.0 <= c;
      MulMonotone(0.0, sy, c);
      forall j | 0 <= j < |rho|
        ensures 0.0 <= ds[j] <= sqrt(top)
      {
        var w := 1.0 - rho[j] * rho[j];
        SquareAtMostOne(rho[j]);
        MulMonotone(0.0, w, sy);
        MulMonotone(w, 1.0, sy);
        MulMonotone(0.0, w * sy, c);
        MulMonotone(w * sy, sy, c);
        SqrtMonotone(sqrt, w * sy * c, top);
        assert Shrunk(rho[j], sy, f, |ys|) == w * sy * c;
      }
      MeanBetween(ds, 0.0, sqrt(top));
      assert RegressionDeviation(ys, Ym, rho, f, sqrt).value == Mean(ds);
      assert 0.0 <= Mean(ds) <= sqrt(top);
      assert top == WageSpread(ys, Ym) * ((1.0 - f) / (|ys| as real));
    }
  }

  /** A correlation's square lies in [0, 1]. */
  lemma SquareAtMostOne(r: real)
    requires -1.0 <= r <= 1.0
    ensures 0.0 <= r * r <= 1.0
  {
    if r < 0.0 {
      var p := -r;
      MulMonotone(0.0, p, p);
      MulMonotone(p, 1.0, p);
      assert p * p == r * r;
    } else {
      MulMonotone(0.0, r, r);
      assert 0.0 <= r * r;
      MulMonotone(r, 1.0, r);
      assert r * r <= 1.0 * r;
    }
  }

  // ------------------------------------------------ the estimator object

  /** The mean squared error of an estimate: its squared bias plus its
      squared standard error. */
  function SquaredError(bias: real, sd: real): real
  {
    bias * bias + sd * sd
  }

  /** With the standard error the root of a variance, the mean squared
      error is the squared bias plus that variance. */
  lemma SquaredErrorOfRoot(bias: real, v: real, sqrt: real -> real)
    requires IsSqrt(sqrt) && 0.0 <= v
    ensures SquaredError(bias, sqrt(v)) == bias * bias + v
  {
  }

  /** The sampling fraction `n / N` of a sample no larger than its
      population lies in (0, 1]. */
  lemma FractionInRange(n: nat, N: nat)
    requires 0 < n <= N
    ensures 0.0 < n as real / N as real <= 1.0
  {
    DivNonNegative(n as real, N as real);
    assert n as real / N as real <= N as real / N as real;
  }

  /** What `kolicnickoOcenjivanje` reports: the figures, the three standard
      deviations (the roots of the variances) and the table of intervals
      around the mean estimate. */
  datatype RatioReport = RatioReport(figures: Ratio, sdTotal: real, sdMean: real, sdRatio: real,
                                     table: seq<ConfidenceRow>)

  /** The figures of `regresionoOcenjivanje`: the estimate of the mean
      from the known population means, its bias and standard error, the
      mean prediction over the sample, and the two estimates of the total
      (over the population, and over the sample expanded by `N / n`). */
  datatype Regression = Regression(mean: real, bias: real, sd: real, sampleMean: real,
                                   total: real, expandedTotal: real)

  /** What `regresionoOcenjivanje` reports: the figures and the table of
      intervals around the mean estimate. */
  datatype RegressionReport = RegressionReport(figures: Regression, table: seq<ConfidenceRow>)

  /** The figures over the population design `pop` and the sample design
      `smp` (same columns), given the coefficients, the standard error and
      the population size.  The estimate of the mean is the sample mean
      shifted by the difference of the mean predictions over the population
      and over the sample, and the expanded sample total is `N` times the
      sample's mean prediction. */
  function RegressionOf(ym: real, Ym: real, pop: Frame, smp: Frame, coef: Labelled, sd: real, N: nat)
    : (q: Regression)
    requires WellFormed(pop) && WellFormed(smp) && pop.rows > 0 && smp.rows > 0
    requires Names(pop) == Names(smp) && Consistent(coef) && SameLabels(smp, coef)
    ensures SameLabels(pop, coef)
    ensures PredictOn(pop, coef, true, false).Success? && PredictOn(pop, coef, false, true).Success?
    ensures PredictOn(smp, coef, true, false).Success? && PredictOn(smp, coef, false, true).Success?
    ensures q.mean == RegressionMean(ym, pop, smp, coef) && q.bias == q.mean - Ym && q.sd == sd
    ensures q.sampleMean == PredictOn(smp, coef, true, false).value.value
    ensures q.total == PredictOn(pop, coef, false, true).value.value
    ensures q.expandedTotal == Expanded(PredictOn(smp, coef, false, true).value.value, N, smp.rows)
    ensures q.mean == ym + PredictOn(pop, coef, true, false).value.value - q.sampleMean
    ensures q.expandedTotal == (N as real) * q.sampleMean
  {
    RegressionShift(ym, pop, smp, coef);
    ExpandedTotal(smp, coef, N);
    var mean := RegressionMean(ym, pop, smp, coef);
    Regression(mean, mean - Ym, sd, PredictOn(smp, coef, true, false).value.value,
               PredictOn(pop, coef, false, true).value.value,
               Expanded(PredictOn(smp, coef, false, true).value.value, N, smp.rows))
  }

  /** The figures of `regresionoOcenjivanje` over the population design
      `pop` and the pruned sample design `smp`: the standard error from the
      correlations of the varying sample columns with the wages `ys`, NaN
      when there is none or at most one row. */
  function RegressionFigures(pop: Frame, smp: Frame, coef: Labelled, ys: seq<real>, Ym: real, ym: real,
                             f: real, N: nat, sqrt: real -> real): (r: Result<Regression>)
    requires WellFormed(pop) && WellFormed(smp) && pop.rows > 0 && smp.rows == |ys| > 0
    requires Names(pop) == Names(smp) && Consistent(coef) && SameLabels(smp, coef)
    ensures var d := RegressionDeviation(ys, Ym, SampleCorrelations(smp.columns, ys, sqrt), f, sqrt);
      && (r.Failure? <==> d.Failure?)
      && (r.Failure? ==> r.fault == NonFinite)
      && (r.Success? ==> r.value.sd == d.value)
  {
    var d := RegressionDeviation(ys, Ym, SampleCorrelations(smp.columns, ys, sqrt), f, sqrt);
    if d.Failure? then Failure(NonFinite) else Success(RegressionOf(ym, Ym, pop, smp, coef, d.value, N))
  }

  /** With a sampling fraction in [0, 1] (`FractionInRange`), the standard
      error of the regression estimate is never above the plain sample
      mean's: every correlation it is built from lies in [-1, 1]. */
  lemma FiguresNoWorse(pop: Frame, smp: Frame, coef: Labelled, ys: seq<real>, Ym: real, ym: real,
                       f: real, N: nat, sqrt: real -> real)
    requires WellFormed(pop) && WellFormed(smp) && pop.rows > 0 && smp.rows == |ys| > 0
    requires Names(pop) == Names(smp) && Consistent(coef) && SameLabels(smp, coef)
    requires IsSqrt(sqrt) && 0.0 <= f <= 1.0
    ensures var r := RegressionFigures(pop, smp, coef, ys, Ym, ym, f, N, sqrt);
      r.Success? ==> |ys| > 1 && 0.0 <= r.value.sd <= sqrt(WageSpread(ys, Ym) * ((1.0 - f) / (|ys| as real)))
  {
    RegressionNoWorse(ys, Ym, SampleCorrelations(smp.columns, ys, sqrt), f, sqrt);
  }

  /** `PSU`: a simple random sample of `n` of the `N` rows of `df`, with the
      design matrices `X` (population) and `x` (sample), the wages `Y` and
      `y` and their means, the levels `alfa` as the caller gave them, the
      bootstrap object once one is needed, and the mean squared errors the
      two estimates leave behind, and the `ONK` model both designs go
      through. */
  class Srs {
    var df: Frame
    var N: nat
    var n: nat
    var f: real
    var seed: int
    var alfa: seq<real>
    var rows: seq<nat>
    var X: Frame
    var x: Frame
    var Y: seq<real>
    var y: seq<real>
    var Ym: real
    var ym: real
    var bs: Bootstrap?
    var SKGR: Option<real>
    var SKGLr: Option<real>
    var model: Ols

    /** The sample as `__init__` left it (the design matrices as they are now). */
    ghost function Drawing(): Sample
      reads this
    {
      Sample(rows, X, x, Y, y)
    }

    ghost predicate Valid()
      reads this, bs, model
    {
      Sound() && model.Valid()
    }

    /** The invariant of the estimator itself, apart from its model. */
    ghost predicate Sound()
      reads this, bs
    {
      && Drawn(df, Drawing()) && N == df.rows && n == |rows|
      && f == n as real / N as real
      && Ym == Mean(Y) && ym == Mean(y) && AllInRange(alfa)
      && (bs != null ==> bs.Valid() && bs.df == df && bs.n == n && bs.means.Some?)
    }

    constructor (data: Frame, s: Sample, levels: seq<real>, seed: int, model: Ols)
      requires Drawn(data, s) && AllInRange(levels) && model.Valid()
      ensures Valid() && Drawing() == s && df == data && alfa == levels && this.seed == seed
      ensures bs == null && SKGR.None? && SKGLr.None? && this.model == model
    {
      df, N, n := data, data.rows, |s.rows|;
      f := |s.rows| as real / data.rows as real;
      this.seed, alfa := seed, levels;
      rows, X, x, Y, y := s.rows, s.X, s.x, s.Y, s.y;
      Ym, ym := Mean(s.Y), Mean(s.y);
      bs, SKGR, SKGLr := null, None, None;
      this.model := model;
    }

    /** `PSU(df, X, Y, n, kategorije, alfa, seed)`: the checks and draws of
        `Setup`, with the design matrices encoded by an `ONK` model. */
    static method Create(data: Frame, design: Frame, size: int, kategorije: Option<seq<string>>,
                         levels: seq<real>, seed: int, pick: (nat, nat, int) -> seq<nat>,
                         show: real -> string) returns (r: Result<Srs>)
      requires WellFormed(data) && WellFormed(design) && design.rows == data.rows && Picks(pick)
      ensures r.Failure? <==> Setup(data, design, size, kategorije, levels, seed, pick, show).Failure?
      ensures r.Failure? ==> r.fault == Setup(data, design, size, kategorije, levels, seed, pick, show).fault
      ensures r.Success? ==> fresh(r.value) && r.value.Valid() && r.value.alfa == levels
      ensures r.Success? ==> r.value.Drawing() == Setup(data, design, size, kategorije, levels, seed, pick, show).value
      ensures r.Success? ==> r.value.bs == null && r.value.SKGR.None? && r.value.SKGLr.None?
      ensures r.Success? ==> r.value.model.alfa == Normalise(Many(levels)).value
    {
      var N := data.rows;
      LevelsAccepted(levels);
      if N == 0 {
        return Failure(ZeroDivision);
      }
      if size < 0 {
        return Failure(NegativeSize);
      }
      if size > N {
        return Failure(SampleTooLarge);
      }
      var drawn := pick(N, size, seed);
      var o := Ols.Create(Many(levels));
      if o.Failure? {
        return Failure(o.fault);
      }
      var d := EncodeDesigns(o.value, design, drawn, kategorije, show);
      assert Setup(data, design, size, kategorije, levels, seed, pick, show) == Draw(data, design, drawn, kategorije, show);
      if d.Failure? {
        return Failure(d.fault);
      }
      var wages := Lookup(data, Target);
      if wages.Failure? {
        return Failure(wages.fault);
      }
      if d.value.0.None? || d.value.1.None? {
        return Failure(NoneAttribute);
      }
      if size == 0 {
        return Failure(NonFinite);
      }
      LookupLength(data, Target);
      var s := Sample(drawn, d.value.0.value, d.value.1.value, wages.value, Pick(wages.value, drawn));
      var p := new Srs(data, s, levels, seed, o.value);
      return Success(p);
    }

    /** The two `vestacke` calls of `__init__` on a fresh model, or the
        design and its drawn rows as they are when there are no categories. */
    static method EncodeDesigns(model: Ols, design: Frame, drawn: seq<nat>, kategorije: Option<seq<string>>,
                                show: real -> string) returns (d: Result<(Option<Frame>, Option<Frame>)>)
      requires model.Valid() && model.x.None?
      requires WellFormed(design) && forall k :: 0 <= k < |drawn| ==> drawn[k] < design.rows
      modifies model`x
      ensures model.Valid() && d == Designs(design, drawn, kategorije, show)
    {
      if kategorije.None? {
        return Success((Some(design), Some(Take(design, drawn))));
      }
      EncodeListWellFormed(design, kategorije, show);
      EncodeListWellFormed(Take(design, drawn), kategorije, show);
      var d1 := model.Dummies(kategorije, Some(design), show);
      if d1.Failure? {
        return Failure(d1.fault);
      }
      var d2 := model.Dummies(kategorije, Some(Take(design, drawn)), show);
      if d2.Failure? {
        return Failure(d2.fault);
      }
      d := Success((d1.value, d2.value));
    }
  
    /** `intervaliPoverenja(ocena, stdev, parametar)`: one row per level of
        `alfa`, with `n - 1` degrees of freedom, checked against the given
        parameter or else the population mean. */
    method Intervals(est: real, sd: real, param: Option<real>, tppf: (real, int) -> real)
      returns (table: seq<ConfidenceRow>)
      requires Valid()
      ensures table == Table(est, sd, alfa, n, if param.Some? then param.value else Ym, tppf)
    {
      table := ConfidenceTable(est, sd, alfa, n, if param.Some? then param.value else Ym, tppf);
    }

    /** `kolicnickoOcenjivanje(var)`: the column `v` of the sample design,
        then of the population design (either may be missing), the ratio
        figures, their square roots, the table around the mean estimate and
        the mean squared error `SKGR = bias² + SYm²`. */
    method RatioEstimate(v: string, sqrt: real -> real, tppf: (real, int) -> real) returns (r: Result<RatioReport>)
      requires Valid()
      modifies this`SKGR
      ensures Valid()
      ensures Lookup(x, v).Failure? || Lookup(X, v).Failure? ==> r == Failure(MissingColumn(v))
      ensures r.Failure? ==> SKGR == old(SKGR)
      ensures Lookup(x, v).Success? && Lookup(X, v).Success? ==>
        |Lookup(X, v).value| == N && |Lookup(x, v).value| == n &&
        var q := RatioOf(Y, Lookup(X, v).value, y, Lookup(x, v).value, f);
        && (q.Failure? ==> r == Failure(NonFinite))
        && (q.Success? ==> r.Success? && r.value.figures == q.value)
      ensures r.Success? ==>
        && r.value.sdTotal == sqrt(r.value.figures.varTotal)
        && r.value.sdMean == sqrt(r.value.figures.varMean)
        && r.value.sdRatio == sqrt(r.value.figures.varRatio)
        && r.value.table == Table(r.value.figures.mean, r.value.sdMean, alfa, n, Ym, tppf)
        && SKGR == Some(SquaredError(r.value.figures.bias, r.value.sdMean))
      ensures r.Success? ==> 0.0 <= r.value.figures.varMean
    {
      var xc := Lookup(x, v);
      if xc.Failure? {
        return Failure(xc.fault);
      }
      var Xc := Lookup(X, v);
      if Xc.Failure? {
        return Failure(Xc.fault);
      }
      LookupLength(x, v);
      LookupLength(X, v);
      var q := RatioOf(Y, Xc.value, y, xc.value, f);
      if q.Failure? {
        return Failure(q.fault);
      }
      var fig := q.value;
      var sdM := sqrt(fig.varMean);
      var table := ConfidenceTable(fig.mean, sdM, alfa, n, Ym, tppf);
      SKGR := Some(SquaredError(fig.bias, sdM));
      r := Success(RatioReport(fig, sqrt(fig.varTotal), sdM, sqrt(fig.varRatio), table));
      FractionInRange(n, N);
      RatioVariances(Y, Xc.value, y, f, fig);
    }
  
    /** `regresionoOcenjivanje(alfa)`, with `level` for `alfa`: the model is
        fitted to the population design, which it replaces (with the
        intercept), then to the sample design, and `fitsig(level)` prunes
        the latter (the ghost `kept` is the design it ends with, `None` when
        one of the three raises).  The population design is cut down to the
        kept columns (one may be missing), the correlations of the varying
        kept columns with the wages give the standard error, and the mean
        squared error of the ratio estimate must already exist for the
        final comparison.  A sample design without a region column never
        gets past `fitsig`. */
    method RegressionEstimate(level: real, show: real -> string, sqrt: real -> real, tppf: (real, int) -> real,
                              fitter: (Frame, seq<real>) -> Option<Estimates>)
      returns (r: Result<RegressionReport>, ghost kept: Option<Frame>)
      requires Valid() && Shaped(fitter)
      modifies this`X, this`x, this`SKGLr, model
      ensures Valid() && model.alfa == old(model.alfa)
      ensures FitFault(old(X), old(x), Y, y, fitter).Some? ==>
        r == Failure(FitFault(old(X), old(x), Y, y, fitter).value) && kept.None?
      ensures kept.None? ==>
        r.Failure? && x == old(x) && SKGLr == old(SKGLr) &&
        X == if PopulationFits(old(X), Y, fitter) then WithConst(old(X)) else old(X)
      ensures !HasGroup(Names(WithConst(old(x)))) ==> kept.None?
      ensures kept.Some? <==>
        FitFault(old(X), old(x), Y, y, fitter).None? && Eliminates(WithConst(old(x)), y, level, model.alfa, tppf, fitter)
      ensures kept.Some? ==>
        && kept.value == Backward(WithConst(old(x)), y, level, model.alfa, tppf, fitter) && x == kept.value
        && WellFormed(kept.value) && kept.value.rows == |y| && WellFormed(WithConst(old(X))) && fitter(kept.value, y).Some?
        && model.b == Some(Labelled(Names(kept.value), fitter(kept.value, y).value.b)) && Consistent(model.b.value)
        && (X, SKGLr, r) == Closing(WithConst(old(X)), kept.value, model.b.value, old(SKGLr), sqrt, tppf)
    {
      var fault := FitDesigns(show, tppf, fitter);
      if fault.Some? {
        return Failure(fault.value), None;
      }
      r, kept := Prune(level, show, sqrt, tppf, fitter);
    }

    /** Lines 147-198 of `regresionoOcenjivanje`, once the model holds the
        sample design with the intercept and the sample wages: `fitsig`
        prunes the design (the ghost `kept` is the design it ends with,
        `None` when it raises), then `Reduce`. */
    method Prune(level: real, show: real -> string, sqrt: real -> real, tppf: (real, int) -> real,
                 fitter: (Frame, seq<real>) -> Option<Estimates>)
      returns (r: Result<RegressionReport>, ghost kept: Option<Frame>)
      requires Valid() && Shaped(fitter)
      requires model.x == Some(WithConst(x)) && model.y == Some(Series(Target, y))
      modifies this`X, this`x, this`SKGLr, model
      ensures Valid() && model.alfa == old(model.alfa)
      ensures kept.None? ==> r.Failure? && x == old(x) && X == old(X) && SKGLr == old(SKGLr)
      ensures !HasGroup(Names(WithConst(old(x)))) ==> kept.None?
      ensures kept.Some? <==> Eliminates(WithConst(old(x)), y, level, model.alfa, tppf, fitter)
      ensures kept.Some? ==>
        && kept.value == Backward(WithConst(old(x)), y, level, model.alfa, tppf, fitter) && x == kept.value
        && WellFormed(kept.value) && kept.value.rows == |y| && fitter(kept.value, y).Some?
        && model.b == Some(Labelled(Names(kept.value), fitter(kept.value, y).value.b)) && Consistent(model.b.value)
        && (X, SKGLr, r) == Closing(old(X), kept.value, model.b.value, old(SKGLr), sqrt, tppf)
    {
      var fault := FitSignificant(level, show, tppf, fitter);
      if fault.Some? {
        return Failure(fault.value), None;
      }
      var design, coef := model.x.value, model.b.value;
      kept := Some(design);
      r := Reduce(design, coef, sqrt, tppf);
    }

    /** Line 147 of `regresionoOcenjivanje`: `fitsig(level)` on the model,
        which holds the sample design with the intercept.  What it keeps is
        the design `Backward` reaches, with one coefficient per column, and
        it never succeeds on a design without a region column. */
    method FitSignificant(level: real, show: real -> string, tppf: (real, int) -> real,
                          fitter: (Frame, seq<real>) -> Option<Estimates>) returns (fault: Option<Fault>)
      requires Valid() && Shaped(fitter)
      requires model.x == Some(WithConst(x)) && model.y == Some(Series(Target, y))
      modifies model
      ensures Valid() && model.alfa == old(model.alfa)
      ensures !HasGroup(Names(WithConst(x))) ==> fault.Some?
      ensures fault.None? <==> Eliminates(WithConst(x), y, level, model.alfa, tppf, fitter)
      ensures fault.None? ==>
        && model.x.Some? && model.x.value == Backward(WithConst(x), y, level, model.alfa, tppf, fitter)
        && WellFormed(model.x.value) && model.x.value.rows == |y| && fitter(model.x.value, y).Some?
        && model.b == Some(Labelled(Names(model.x.value), fitter(model.x.value, y).value.b))
        && Consistent(model.b.value)
    {
      var sig := model.FitSig(level, show, tppf, fitter);
      if sig.Failure? {
        return Some(sig.fault);
      }
      BackwardKeeps(WithConst(x), y, level, model.alfa, tppf, fitter);
      GroupKept(Names(model.x.value), Names(WithConst(x)));
      return None;
    }

    /** Lines 139-141 of `regresionoOcenjivanje`: the model fitted to the
        population design, which becomes that design with the intercept,
        then to the sample design. */
    method FitDesigns(show: real -> string, tppf: (real, int) -> real,
                      fitter: (Frame, seq<real>) -> Option<Estimates>) returns (fault: Option<Fault>)
      requires Valid() && Shaped(fitter)
      modifies this`X, model
      ensures Valid() && model.alfa == old(model.alfa)
      ensures fault == FitFault(old(X), x, Y, y, fitter)
      ensures X == if PopulationFits(old(X), Y, fitter) then WithConst(old(X)) else old(X)
      ensures fault.None? ==> model.x == Some(WithConst(x)) && model.y == Some(Series(Target, y))
    {
      fault := FitModel(X, Y, show, tppf, fitter);
      if fault.Some? {
        return;
      }
      Redesigned(df, Drawing(), model.x.value, x);
      X := model.x.value;
      fault := FitModel(x, y, show, tppf, fitter);
    }

    /** `self.model.fit(d, v)`: with the intercept and no category list,
        the model holds `d` with the intercept and `v` afterwards, and the
        fit fails on a category column or a singular X'X. */
    method FitModel(d: Frame, v: seq<real>, show: real -> string, tppf: (real, int) -> real,
                    fitter: (Frame, seq<real>) -> Option<Estimates>) returns (fault: Option<Fault>)
      requires Valid() && Shaped(fitter) && WellFormed(d) && |v| == d.rows
      modifies model
      ensures Valid() && model.alfa == old(model.alfa)
      ensures model.x == Some(WithConst(d)) && model.y == Some(Series(Target, v))
      ensures fault == if HasCategory(d) then Some(NotIterable)
                       else if fitter(WithConst(d), v).None? then Some(Singular) else None
    {
      PrepareWithoutList(d, show);
      var fit := model.Fit(d, Series(Target, v), true, None, show, tppf, fitter);
      fault := if fit.Failure? then Some(fit.fault) else None;
    }

    /** What lines 149-198 of `regresionoOcenjivanje` leave (the population
        design, `SKGLr` and the outcome) when they start from the population
        design `pop`, the sample design `kept` that `fitsig` ended with, its
        coefficients `coef` and the previous `SKGLr`, `last`: a column of
        `kept` missing from `pop` raises; otherwise the population design is
        cut down to the kept columns, `RegressionFigures` gives the figures
        (`FiguresNoWorse` bounds their standard error), and `SKGLr` and the
        report follow, unless `SKGR` was never set. */
    ghost function Closing(pop: Frame, kept: Frame, coef: Labelled, last: Option<real>,
                           sqrt: real -> real, tppf: (real, int) -> real)
      : (Frame, Option<real>, Result<RegressionReport>)
      reads this
      requires WellFormed(pop) && pop.rows > 0 && WellFormed(kept) && kept.rows == |y| > 0
      requires Consistent(coef) && coef.index == Names(kept)
    {
      var sel := Select(pop, Names(kept));
      if sel.Failure? then (pop, last, Failure(sel.fault))
      else
        var (mse, r) := Finish(sel.value, kept, coef, last, sqrt, tppf);
        (sel.value, mse, r)
    }

    /** `SKGLr` and the outcome once the population design `pop` and the
        sample design `smp` share their columns: the figures of
        `RegressionFigures` (NaN raises nothing in the source, the model
        fails), then `SKGLr`, then the report, or the missing `SKGR`. */
    ghost function Finish(pop: Frame, smp: Frame, coef: Labelled, last: Option<real>,
                          sqrt: real -> real, tppf: (real, int) -> real)
      : (Option<real>, Result<RegressionReport>)
      reads this
      requires WellFormed(pop) && pop.rows > 0 && WellFormed(smp) && smp.rows == |y| > 0
      requires Names(pop) == Names(smp) && Consistent(coef) && SameLabels(smp, coef)
    {
      var fig := RegressionFigures(pop, smp, coef, y, Ym, ym, f, N, sqrt);
      if fig.Failure? then (last, Failure(fig.fault))
      else
        var q := fig.value;
        (Some(SquaredError(q.bias, q.sd)),
         if SKGR.None? then Failure(Unset("SKGR")) else Success(RegressionReport(q, Table(q.mean, q.sd, alfa, n, Ym, tppf))))
    }

    /** Lines 149-198 of `regresionoOcenjivanje` once `fitsig` has left the
        sample design `kept` with the coefficients `coef`. */
    method Reduce(kept: Frame, coef: Labelled, sqrt: real -> real, tppf: (real, int) -> real)
      returns (r: Result<RegressionReport>)
      requires Valid() && WellFormed(kept) && kept.rows == n && coef.index == Names(kept) && Consistent(coef)
      modifies this`X, this`x, this`SKGLr
      ensures Valid() && x == kept
      ensures (X, SKGLr, r) == Closing(old(X), kept, coef, old(SKGLr), sqrt, tppf)
    {
      var fault := Align(X, kept);
      if fault.Some? {
        return Failure(fault.value);
      }
      r := Conclude(coef, sqrt, tppf);
    }

    /** The designs of `regresionoOcenjivanje`: the sample's is kept as
        it is, the population's is cut down to the sample's columns. */
    method Align(fitted: Frame, kept: Frame) returns (fault: Option<Fault>)
      requires Valid()
      requires WellFormed(fitted) && fitted.rows == N && WellFormed(kept) && kept.rows == n
      modifies this`X, this`x
      ensures Valid() && x == kept
      ensures Select(fitted, Names(kept)).Failure? ==>
        X == fitted && fault == Some(Select(fitted, Names(kept)).fault)
      ensures Select(fitted, Names(kept)).Success? ==>
        X == Select(fitted, Names(kept)).value && fault.None? && Names(X) == Names(x)
    {
      var sel := Select(fitted, Names(kept));
      var design := if sel.Success? then sel.value else fitted;
      Redesigned(df, Drawing(), design, kept);
      X, x := design, kept;
      if sel.Failure? {
        return Some(sel.fault);
      }
      return None;
    }

    /** The rest of `regresionoOcenjivanje` once the two designs share
        their columns with the coefficients' labels. */
    method Conclude(coef: Labelled, sqrt: real -> real, tppf: (real, int) -> real)
      returns (r: Result<RegressionReport>)
      requires Valid() && Names(X) == Names(x) && Consistent(coef) && SameLabels(x, coef)
      modifies this`SKGLr
      ensures Valid()
      ensures (SKGLr, r) == Finish(X, x, coef, old(SKGLr), sqrt, tppf)
    {
      var fig := RegressionFigures(X, x, coef, y, Ym, ym, f, N, sqrt);
      if fig.Failure? {
        return Failure(fig.fault);
      }
      var q := fig.value;
      var table := ConfidenceTable(q.mean, q.sd, alfa, n, Ym, tppf);
      SKGLr := Some(SquaredError(q.bias, q.sd));
      if SKGR.None? {
        return Failure(Unset("SKGR"));
      }
      r := Success(RegressionReport(q, table));
    }
  
    /** `minimalni_interval(k)`: the bootstrap object (made and fitted with
        `k` rounds, 3000 by default, when there is none yet), then the grid
        scanned from level 1 down to 0.001 until an interval contains the
        sample mean `ym`; that level joins `alfa` (which is then sorted)
        unless it is there already, and the answer is its coverage `1 - a`,
        or nothing when no level covers. */
    method MinimalInterval(k: Option<int>, draw: (seq<real>, nat, int) -> seq<real>, sqrt: real -> real)
      returns (r: Result<Option<real>>)
      requires Valid()
      modifies this`bs, this`alfa
      ensures Valid() && bs != null
      ensures old(bs) != null ==> bs == old(bs)
      ensures old(bs) == null ==> fresh(bs) && bs.alfa == Normalise(Many(old(alfa))).value
      ensures old(bs) == null && r.Success? && Rounds(k) > 0 ==>
        bs.means == Some(SampleMeans(Y, n, 42, Rounds(k), draw))
      ensures r.Failure? <==> !bs.series
      ensures r.Failure? ==> alfa == old(alfa)
      ensures r.Success? && r.value.None? ==>
        alfa == old(alfa) && NoneCovers(Present(bs.means.value), GridSize, ym)
      ensures r.Success? && r.value.Some? ==>
        exists i :: 0 <= i < GridSize && FirstCover(Present(bs.means.value), i, ym) &&
          r.value.value == 1.0 - Grid(i) &&
          alfa == (if Grid(i) in old(alfa) then old(alfa) else Sort(old(alfa) + [Grid(i)]))
    {
      var fault := Prepare(k, draw, sqrt);
      if fault.Some? {
        return Failure(fault.value);
      }
      r := Locate();
    }

    /** The scan of `minimalni_interval` once the bootstrap object is
        there, and the level it finds added to `alfa`. */
    method Locate() returns (r: Result<Option<real>>)
      requires Valid() && bs != null
      modifies this`alfa
      ensures Valid()
      ensures r.Failure? <==> !bs.series
      ensures r.Failure? ==> alfa == old(alfa)
      ensures r.Success? && r.value.None? ==>
        alfa == old(alfa) && NoneCovers(Present(bs.means.value), GridSize, ym)
      ensures r.Success? && r.value.Some? ==>
        exists i :: 0 <= i < GridSize && FirstCover(Present(bs.means.value), i, ym) &&
          r.value.value == 1.0 - Grid(i) &&
          alfa == (if Grid(i) in old(alfa) then old(alfa) else Sort(old(alfa) + [Grid(i)]))
    {
      ghost var means := Present(bs.means.value);
      HitsAgree(means, ym);
      var found := Scan(bs, ym, Hits(means, ym));
      if found.Failure? {
        return Failure(found.fault);
      }
      if found.value.None? {
        return Success(None);
      }
      var i := found.value.value;
      GridPoint(i);
      Adopt(Grid(i));
      return Success(Some(1.0 - Grid(i)));
    }

    /** A level found by the scan joins `alfa`, which is then sorted,
        unless it is there already. */
    method Adopt(a: real)
      requires Valid() && InRange(a)
      modifies this`alfa
      ensures Valid()
      ensures alfa == (if a in old(alfa) then old(alfa) else Sort(old(alfa) + [a]))
    {
      if a !in alfa {
        SortInRange(alfa + [a]);
        alfa := Sort(alfa + [a]);
      }
    }

    /** The bootstrap object of `minimalni_interval`: kept when there is
        one; otherwise made over `df` with the levels `alfa` and the sample
        size, stored, and fitted with seed 42. */
    method Prepare(k: Option<int>, draw: (seq<real>, nat, int) -> seq<real>, sqrt: real -> real)
      returns (fault: Option<Fault>)
      requires Valid()
      modifies this`bs
      ensures Valid() && bs != null
      ensures old(bs) != null ==> bs == old(bs) && fault.None?
      ensures old(bs) == null ==> fresh(bs) && bs.alfa == Normalise(Many(alfa)).value
      ensures old(bs) == null && fault.None? && Rounds(k) > 0 ==>
        bs.means == Some(SampleMeans(Y, n, 42, Rounds(k), draw))
      ensures fault.Some? ==> !bs.series
    {
      if bs != null {
        return None;
      }
      LevelsAccepted(alfa);
      var c := Bootstrap.Create(df, Many(alfa), Some(n));
      var b := c.value;
      bs := b;
      fault := b.Fit(Rounds(k), 42, draw, sqrt);
    }

    /** The scan of the grid: the first level whose interval over the
        recorded means contains `target`.  Means recorded as a plain list
        (after a failed fit) have no quantiles; an empty series gives NaN
        bounds, which contain nothing. */
    static method Scan(b: Bootstrap, target: real, ghost hit: nat -> bool) returns (r: Result<Option<nat>>)
      requires b.Valid() && b.means.Some? && Agrees(hit, Present(b.means.value), target)
      ensures r.Failure? <==> !b.series
      ensures r.Failure? ==> r.fault == NotSeries
      ensures r.Success? && r.value.Some? ==>
        r.value.value < GridSize && hit(r.value.value) && NoneBefore(hit, r.value.value)
      ensures r.Success? && r.value.None? ==> NoneBefore(hit, GridSize)
    {
      var i := 0;
      while i < GridSize
        invariant 0 <= i <= GridSize
        invariant NoneBefore(hit, i)
      {
        var found := Probe(b, i, target, hit);
        if found.Failure? {
          return Failure(found.fault);
        }
        if found.value {
          return Success(Some(i));
        }
        i := i + 1;
      }
      if !b.series {
        return Failure(NotSeries);
      }
      return Success(None);
    }
  }

  /** One step of the scan: whether the interval of grid level `i` over
      the recorded means contains `target`.  An empty series gives NaN
      bounds, which contain nothing; means recorded as a plain list have no
      quantiles. */
  method Probe(b: Bootstrap, i: nat, target: real, ghost hit: nat -> bool) returns (r: Result<bool>)
    requires b.Valid() && b.means.Some? && i < GridSize && Agrees(hit, Present(b.means.value), target)
    ensures b.series ==> r.Success? && r.value == hit(i)
    ensures !b.series ==> r == Failure(NotSeries)
  {
    var a := Grid(i);
    ghost var means := Present(b.means.value);
    assert hit(i) == Covers(means, a, target);
    GridPoint(i);
    SingleLevel(means, a);
    var iv := b.Interval(Some([a]), None);
    if iv.Failure? && iv.fault != NonFinite {
      return Failure(iv.fault);
    }
    return Success(iv.Success? && iv.value[0].lower <= target <= iv.value[0].upper);
  }

  /** The number of bootstrap rounds: `k`, or 3000 when none is given. */
  function Rounds(k: Option<int>): int
  {
    if k.Some? then k.value else 3000
  }

  /** Every point of the grid is a level in (0, 1]. */
  lemma GridPoint(i: nat)
    requires i < GridSize
    ensures InRange(Grid(i)) && 0.0 < Grid(i)
  {
  }
}
