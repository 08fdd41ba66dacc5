/** The ratio estimates of `SSU.kolicnickoOcenjivanje` in
    `klase/Sampling.py`: the separate estimate, which scales each stratum's
    education total by that stratum's sample ratio of wages to education,
    with its variance, and the combined estimate, which scales the whole
    education total by the ratio of the two stratified means. */
module StrataRatio {
  import opened Outcomes
  import opened Stats
  import opened Allocation
  import opened Pearson
  import opened Strata
  import Survey
  import opened Frames

  /** The layers with the roles of wage and education exchanged: what the
      source computes for `obrazovanje` is the wage figure of these. */
  function Swapped(ls: seq<Layer>): (r: seq<Layer>)
    ensures |r| == |ls|
    ensures forall h :: 0 <= h < |ls| ==> r[h] == Layer(ls[h].Xp, ls[h].Yp, ls[h].xs, ls[h].ys)
  {
    seq(|ls|, h requires 0 <= h < |ls| => Layer(ls[h].Xp, ls[h].Yp, ls[h].xs, ls[h].ys))
  }

  /** Grouping the education column is grouping with the columns exchanged. */
  lemma SwappedLayers(labels: seq<string>, strata: seq<string>, rows: seq<nat>, Y: seq<real>, X: seq<real>)
    requires |Y| == |labels| && |X| == |labels|
    requires forall k :: 0 <= k < |rows| ==> rows[k] < |labels|
    ensures Layers(labels, strata, rows, X, Y) == Swapped(Layers(labels, strata, rows, Y, X))
  {
    var a, b := Layers(labels, strata, rows, X, Y), Swapped(Layers(labels, strata, rows, Y, X));
    forall h | 0 <= h < |strata|
      ensures a[h] == b[h]
    {
      var l := LayerOf(labels, rows, Y, X, strata[h]);
      assert a[h] == LayerOf(labels, rows, X, Y, strata[h]);
      assert b[h] == Layer(l.Xp, l.Yp, l.xs, l.ys);
    }
  }

  /** Every stratum's sample has a non-zero education total `xh`. */
  predicate SampleBased(ls: seq<Layer>)
  {
    forall h :: 0 <= h < |ls| ==> Sum(ls[h].xs) != 0.0
  }

  /** Every stratum's population has a non-zero education total `Xh`. */
  predicate PopulationBased(ls: seq<Layer>)
  {
    forall h :: 0 <= h < |ls| ==> Sum(ls[h].Xp) != 0.0
  }

  /** `Rh = Yh / Xh`: the population ratio of every stratum. */
  function PopulationRatios(ls: seq<Layer>): (r: seq<real>)
    requires PopulationBased(ls)
    ensures |r| == |ls| && forall h :: 0 <= h < |ls| ==> r[h] == Sum(ls[h].Yp) / Sum(ls[h].Xp)
  {
    seq(|ls|, h requires 0 <= h < |ls| => Sum(ls[h].Yp) / Sum(ls[h].Xp))
  }

  /** `yh / xh`: the sample ratio of every stratum. */
  function SampleRatios(ls: seq<Layer>): (r: seq<real>)
    requires SampleBased(ls)
    ensures |r| == |ls| && forall h :: 0 <= h < |ls| ==> r[h] == Sum(ls[h].ys) / Sum(ls[h].xs)
  {
    seq(|ls|, h requires 0 <= h < |ls| => Sum(ls[h].ys) / Sum(ls[h].xs))
  }

  /** Every stratum's sample ratio is its population ratio. */
  predicate RatiosMatch(ls: seq<Layer>)
    requires SampleBased(ls) && PopulationBased(ls)
  {
    forall h :: 0 <= h < |ls| ==> SampleRatios(ls)[h] == PopulationRatios(ls)[h]
  }

  /** Every entry lies in [-1, 1], as a correlation does. */
  predicate InUnitRange(rho: seq<real>)
  {
    forall h :: 0 <= h < |rho| ==> -1.0 <= rho[h] <= 1.0
  }

  /** `YtotalRs = (yh / xh) @ Xh`.  When every stratum's sample ratio is
      its population ratio, the separate estimate is the sum of the strata's
      wage totals. */
  function SeparateTotal(ls: seq<Layer>): (r: real)
    requires SampleBased(ls)
    ensures PopulationBased(ls) && RatiosMatch(ls) ==>
      r == Sum(Totals(ls))
  {
    RatiosTimesTotals(ls);
    Dot(SampleRatios(ls), Totals(Swapped(ls)))
  }

  lemma RatiosTimesTotals(ls: seq<Layer>)
    requires SampleBased(ls)
    ensures PopulationBased(ls) && RatiosMatch(ls) ==>
      Dot(SampleRatios(ls), Totals(Swapped(ls))) == Sum(Totals(ls))
  {
    if !(PopulationBased(ls) && RatiosMatch(ls)) {
      return;
    }
    var a, b := SampleRatios(ls), Totals(Swapped(ls));
    forall h | 0 <= h < |ls|
      ensures Products(a, b)[h] == Totals(ls)[h]
    {
      RatioTimesBase(Sum(ls[h].Yp), Sum(ls[h].Xp));
    }
    assert Products(a, b) == Totals(ls);
    SumProducts(a, b);
  }

  lemma RatioTimesBase(y: real, x: real)
    requires x != 0.0
    ensures (y / x) * x == y
  {
  }

  /** Over the strata of a whole population, the separate estimate with
      every sample ratio equal to its population ratio is the population's
      wage total. */
  lemma SeparateTotalOfPopulation(labels: seq<string>, rows: seq<nat>, Y: seq<real>, X: seq<real>)
    requires |Y| == |labels| && |X| == |labels|
    requires forall k :: 0 <= k < |rows| ==> rows[k] < |labels|
    requires var ls := Layers(labels, Distinct(labels), rows, Y, X);
      SampleBased(ls) && PopulationBased(ls) &&
      forall h :: 0 <= h < |ls| ==> SampleRatios(ls)[h] == PopulationRatios(ls)[h]
    ensures SeparateTotal(Layers(labels, Distinct(labels), rows, Y, X)) == Sum(Y)
  {
    TotalsAddUp(labels, rows, Y, X);
  }

  // ---------------------------------------------------------- correlations

  /** `rho`: the correlation of education with wages inside every
      stratum's sample, `None` where pandas gives NaN. */
  function Correlations(ls: seq<Layer>, sqrt: real -> real): (r: seq<Option<real>>)
    requires Paired(ls)
    ensures |r| == |ls| && forall h :: 0 <= h < |ls| ==> r[h] == Correlation(ls[h].xs, ls[h].ys, sqrt)
  {
    seq(|ls|, h requires 0 <= h < |ls| => Correlation(ls[h].xs, ls[h].ys, sqrt))
  }

  /** No stratum's correlation is NaN. */
  predicate Defined(rs: seq<Option<real>>)
  {
    forall h :: 0 <= h < |rs| ==> rs[h].Some?
  }

  /** The correlations as numbers, once none is NaN. */
  function Coefficients(rs: seq<Option<real>>): (r: seq<real>)
    requires Defined(rs)
    ensures |r| == |rs| && forall h :: 0 <= h < |rs| ==> Some(r[h]) == rs[h]
  {
    seq(|rs|, h requires 0 <= h < |rs| => rs[h].value)
  }

  /** Every correlation that is a number lies in [-1, 1]. */
  predicate Bounded(rs: seq<Option<real>>)
  {
    forall h :: 0 <= h < |rs| && rs[h].Some? ==> -1.0 <= rs[h].value <= 1.0
  }

  /** The per-stratum correlations lie in [-1, 1], and so do their values
      once none is NaN. */
  lemma CorrelationsBounded(ls: seq<Layer>, sqrt: real -> real)
    requires Paired(ls) && IsSqrt(sqrt)
    ensures Bounded(Correlations(ls, sqrt))
    ensures Defined(Correlations(ls, sqrt)) ==>
      forall h :: 0 <= h < |ls| ==> -1.0 <= Coefficients(Correlations(ls, sqrt))[h] <= 1.0
  {
    forall h | 0 <= h < |ls|
      ensures Correlations(ls, sqrt)[h].Some? ==> -1.0 <= Correlations(ls, sqrt)[h].value <= 1.0
    {
      CorrelationBounded(ls[h].xs, ls[h].ys, sqrt);
    }
  }

  // --------------------------------------------- variance of the separate estimate

  /** `Nh² (1 - f) / nh`, `f = n / N` being the overall sampling fraction. */
  function RatioFactors(ls: seq<Layer>, f: real): (r: seq<real>)
    requires Sampled(ls)
    ensures |r| == |ls|
    ensures forall h :: 0 <= h < |ls| ==>
      r[h] == |ls[h].Yp| as real * |ls[h].Yp| as real * (1.0 - f) / |ls[h].ys| as real
  {
    seq(|ls|, h requires 0 <= h < |ls| =>
      |ls[h].Yp| as real * |ls[h].Yp| as real * (1.0 - f) / |ls[h].ys| as real)
  }

  /** `S2h + Rh² Sx2h - 2 Rh ρh √S2h √Sx2h`, one per stratum. */
  function RatioSpreads(ls: seq<Layer>, rho: seq<real>, sqrt: real -> real): (r: seq<real>)
    requires Spread(ls) && Spread(Swapped(ls)) && PopulationBased(ls) && |rho| == |ls|
    ensures |r| == |ls|
    ensures forall h :: 0 <= h < |ls| ==>
      r[h] == SpreadTerm(Variances(ls)[h], Variances(Swapped(ls))[h], PopulationRatios(ls)[h], rho[h], sqrt)
  {
    var S2, Sx2, R := Variances(ls), Variances(Swapped(ls)), PopulationRatios(ls);
    seq(|ls|, h requires 0 <= h < |ls| => SpreadTerm(S2[h], Sx2[h], R[h], rho[h], sqrt))
  }

  function SpreadTerm(S2: real, Sx2: real, R: real, rho: real, sqrt: real -> real): real
  {
    S2 + R * R * Sx2 - 2.0 * R * rho * sqrt(S2) * sqrt(Sx2)
  }

  /** The square of `SYtotalRs`: `Nh² (1 - f) / nh @ (S2h + Rh² Sx2h - 2 Rh ρh √S2h √Sx2h)`. */
  /** With every correlation in [-1, 1] and a sample no larger than the
      population, the variance of the separate estimate is not negative, so
      its root is a number. */
  function SeparateVariance(ls: seq<Layer>, N: nat, n: nat, rho: seq<real>, sqrt: real -> real): (r: real)
    requires Spread(ls) && Spread(Swapped(ls)) && PopulationBased(ls) && |rho| == |ls| && N > 0
    ensures 0 < n <= N && IsSqrt(sqrt) && InUnitRange(rho) ==> 0.0 <= r
  {
    SeparateTermsNonNegative(ls, N, n, rho, sqrt);
    Dot(RatioFactors(ls, n as real / N as real), RatioSpreads(ls, rho, sqrt))
  }

  lemma SeparateTermsNonNegative(ls: seq<Layer>, N: nat, n: nat, rho: seq<real>, sqrt: real -> real)
    requires Spread(ls) && Spread(Swapped(ls)) && PopulationBased(ls) && |rho| == |ls| && N > 0
    ensures 0 < n <= N && IsSqrt(sqrt) && InUnitRange(rho) ==>
      0.0 <= Dot(RatioFactors(ls, n as real / N as real), RatioSpreads(ls, rho, sqrt))
  {
    if !(0 < n <= N && IsSqrt(sqrt) && InUnitRange(rho)) {
      return;
    }
    var f := n as real / N as real;
    FractionAtMostOne(n, N);
    FactorsNonNegative(ls, f);
    SpreadsNonNegative(ls, rho, sqrt);
    DotNonNegative(RatioFactors(ls, f), RatioSpreads(ls, rho, sqrt));
  }

  lemma FactorsNonNegative(ls: seq<Layer>, f: real)
    requires Sampled(ls) && f <= 1.0
    ensures forall h :: 0 <= h < |ls| ==> 0.0 <= RatioFactors(ls, f)[h]
  {
    forall h | 0 <= h < |ls|
      ensures 0.0 <= RatioFactors(ls, f)[h]
    {
      var Nh := |ls[h].Yp| as real;
      MulSelfNonNegative(Nh);
      MulNonNegative(Nh * Nh, 1.0 - f);
      DivNonNegative(Nh * Nh * (1.0 - f), |ls[h].ys| as real);
    }
  }

  lemma SpreadsNonNegative(ls: seq<Layer>, rho: seq<real>, sqrt: real -> real)
    requires Spread(ls) && Spread(Swapped(ls)) && PopulationBased(ls) && |rho| == |ls|
    requires IsSqrt(sqrt) && forall h :: 0 <= h < |rho| ==> -1.0 <= rho[h] <= 1.0
    ensures forall h :: 0 <= h < |ls| ==> 0.0 <= RatioSpreads(ls, rho, sqrt)[h]
  {
    forall h | 0 <= h < |ls|
      ensures 0.0 <= RatioSpreads(ls, rho, sqrt)[h]
    {
      SpreadTermNonNegative(Variances(ls)[h], Variances(Swapped(ls))[h], PopulationRatios(ls)[h], rho[h], sqrt);
    }
  }

  /** `S2 + R² Sx2 - 2 R ρ √S2 √Sx2` is at least `(√S2 - |R| √Sx2)²`. */
  lemma SpreadTermNonNegative(S2: real, Sx2: real, R: real, rho: real, sqrt: real -> real)
    requires IsSqrt(sqrt) && 0.0 <= S2 && 0.0 <= Sx2 && -1.0 <= rho <= 1.0
    ensures 0.0 <= SpreadTerm(S2, Sx2, R, rho, sqrt)
  {
    var a, b := sqrt(S2), sqrt(Sx2);
    var u := R * b;
    assert R * R * Sx2 == u * u by {
      assert Sx2 == b * b;
    }
    assert SpreadTerm(S2, Sx2, R, rho, sqrt) == a * a + u * u - 2.0 * rho * (a * u);
    CrossTermBounded(a, u, rho);
  }

  /** `a² + u² - 2ρau >= 0` for `ρ` in [-1, 1]. */
  lemma CrossTermBounded(a: real, u: real, rho: real)
    requires -1.0 <= rho <= 1.0
    ensures 0.0 <= a * a + u * u - 2.0 * rho * (a * u)
  {
    var p := a * u;
    if 0.0 <= p {
      MulSelfNonNegative(a - u);
      MulNonNegative(p, 1.0 - rho);
      assert (a - u) * (a - u) == a * a + u * u - 2.0 * p;
    } else {
      MulSelfNonNegative(a + u);
      MulNonNegative(-p, 1.0 + rho);
      assert (a + u) * (a + u) == a * a + u * u + 2.0 * p;
    }
  }

  // --------------------------------------------------------- combined estimate

  /** `YtotalRc = ybarSt / xbarSt · Xtotal`, `xbarSt = Nh @ xbarh / N`. */
  function CombinedTotal(ls: seq<Layer>, N: nat, Xtotal: real): real
    requires Sampled(ls) && Sampled(Swapped(ls)) && N > 0
    requires StratifiedMean(Swapped(ls), N) != 0.0
  {
    StratifiedMean(ls, N) / StratifiedMean(Swapped(ls), N) * Xtotal
  }

  /** With every stratum's sample means of wage and education equal to the
      population's, the combined estimate is the population's wage total. */
  lemma CombinedTotalExact(labels: seq<string>, rows: seq<nat>, Y: seq<real>, X: seq<real>)
    requires |labels| > 0 && |Y| == |labels| && |X| == |labels| && Sum(X) != 0.0
    requires forall k :: 0 <= k < |rows| ==> rows[k] < |labels|
    requires var ls := Layers(labels, Distinct(labels), rows, Y, X);
      Populated(ls) && Sampled(ls) && Sampled(Swapped(ls)) &&
      forall h :: 0 <= h < |ls| ==> Mean(ls[h].ys) == Mean(ls[h].Yp) && Mean(ls[h].xs) == Mean(ls[h].Xp)
    ensures var ls := Layers(labels, Distinct(labels), rows, Y, X);
      StratifiedMean(Swapped(ls), |labels|) == Mean(X) != 0.0 &&
      CombinedTotal(ls, |labels|, Sum(X)) == Sum(Y)
  {
    StratifiedMeanExact(labels, rows, Y, X);
    EducationMeanExact(labels, rows, Y, X);
    CombinedOfMeans(Layers(labels, Distinct(labels), rows, Y, X), |labels|, Sum(Y), Sum(X));
  }

  /** The combined estimate from stratified means that are the population
      means `y / N` and `x / N`. */
  lemma CombinedOfMeans(ls: seq<Layer>, N: nat, y: real, x: real)
    requires Sampled(ls) && Sampled(Swapped(ls)) && N > 0 && x != 0.0
    requires StratifiedMean(ls, N) == y / N as real && StratifiedMean(Swapped(ls), N) == x / N as real
    ensures StratifiedMean(Swapped(ls), N) != 0.0 && CombinedTotal(ls, N, x) == y
  {
    MeansRatio(StratifiedMean(ls, N), StratifiedMean(Swapped(ls), N), y, x, N as real);
  }

  /** Wages are exactly `c` times education, in every stratum's population
      and sample. */
  predicate Proportional(ls: seq<Layer>, c: real)
  {
    forall h :: 0 <= h < |ls| ==> ls[h].Yp == Scale(c, ls[h].Xp) && ls[h].ys == Scale(c, ls[h].xs)
  }

  /** With wages `c` times education, every sample ratio is `c` and the
      separate estimate is `c` times the education total of the strata. */
  lemma SeparateProportional(ls: seq<Layer>, c: real)
    requires SampleBased(ls) && Proportional(ls, c)
    ensures SeparateTotal(ls) == c * Sum(Totals(Swapped(ls)))
  {
    var a := SampleRatios(ls);
    forall h | 0 <= h < |ls|
      ensures a[h] == c
    {
      RatioIsFactor(ls[h], c);
    }
    DotConstantLeft(a, Totals(Swapped(ls)), c);
    assert SeparateTotal(ls) == Dot(a, Totals(Swapped(ls)));
  }

  lemma {:induction false} DotConstantLeft(a: seq<real>, b: seq<real>, c: real)
    requires |a| == |b| && forall h :: 0 <= h < |a| ==> a[h] == c
    ensures Dot(a, b) == c * Sum(b)
  {
    if |a| > 0 {
      DotConstantLeft(a[1..], b[1..], c);
      Distribute(c, b[0], Sum(b[1..]));
    }
  }

  lemma RatioIsFactor(l: Layer, c: real)
    requires l.ys == Scale(c, l.xs) && Sum(l.xs) != 0.0
    ensures Sum(l.ys) / Sum(l.xs) == c
  {
    SumScale(c, l.xs);
    QuotientIsFactor(Sum(l.ys), Sum(l.xs), c);
  }

  lemma QuotientIsFactor(y: real, x: real, c: real)
    requires x != 0.0 && y == c * x
    ensures y / x == c
  {
  }

  /** With wages `c` times education, the stratified wage mean is `c` times
      the stratified education mean. */
  lemma StratifiedMeanProportional(ls: seq<Layer>, N: nat, c: real)
    requires Sampled(ls) && Sampled(Swapped(ls)) && N > 0 && Proportional(ls, c)
    ensures StratifiedMean(ls, N) == c * StratifiedMean(Swapped(ls), N)
  {
    var sw := Swapped(ls);
    MeansProportional(ls, c);
    WeightsSwapped(ls, N, c);
    DotScaleRight(c, Weights(sw, N), SampleMeans(sw));
  }

  lemma MeansProportional(ls: seq<Layer>, c: real)
    requires Sampled(ls) && Sampled(Swapped(ls)) && Proportional(ls, c)
    ensures SampleMeans(ls) == Scale(c, SampleMeans(Swapped(ls)))
  {
    var m := SampleMeans(Swapped(ls));
    forall h | 0 <= h < |ls|
      ensures SampleMeans(ls)[h] == Scale(c, m)[h]
    {
      Survey.MeanScale(c, ls[h].xs);
    }
  }

  lemma WeightsSwapped(ls: seq<Layer>, N: nat, c: real)
    requires N > 0 && Proportional(ls, c)
    ensures Weights(ls, N) == Weights(Swapped(ls), N)
  {
    var sw := Swapped(ls);
    forall h | 0 <= h < |ls|
      ensures Weights(ls, N)[h] == Weights(sw, N)[h]
    {
      assert |ls[h].Yp| == |ls[h].Xp| == |sw[h].Yp|;
    }
  }

  /** With wages `c` times education, the combined estimate is `c` times the
      education total. */
  lemma CombinedProportional(ls: seq<Layer>, N: nat, Xtotal: real, c: real)
    requires Sampled(ls) && Sampled(Swapped(ls)) && N > 0 && Proportional(ls, c)
    requires StratifiedMean(Swapped(ls), N) != 0.0
    ensures CombinedTotal(ls, N, Xtotal) == c * Xtotal
  {
    StratifiedMeanProportional(ls, N, c);
    QuotientIsFactor(StratifiedMean(ls, N), StratifiedMean(Swapped(ls), N), c);
  }

  lemma PickScaled(c: real, Y: seq<real>, X: seq<real>, rows: seq<nat>)
    requires |Y| == |X| && forall i :: 0 <= i < |X| ==> Y[i] == c * X[i]
    requires forall k :: 0 <= k < |rows| ==> rows[k] < |X|
    ensures Pick(Y, rows) == Scale(c, Pick(X, rows))
  {
    forall k | 0 <= k < |rows|
      ensures Pick(Y, rows)[k] == Scale(c, Pick(X, rows))[k]
    {
      assert Pick(Y, rows)[k] == Y[rows[k]] == c * X[rows[k]];
    }
  }

  /** Layers cut from a population whose wages are `c` times its education
      are proportional. */
  lemma LayersProportional(labels: seq<string>, strata: seq<string>, rows: seq<nat>, Y: seq<real>, X: seq<real>, c: real)
    requires |Y| == |labels| && |X| == |labels| && forall i :: 0 <= i < |X| ==> Y[i] == c * X[i]
    requires forall k :: 0 <= k < |rows| ==> rows[k] < |labels|
    ensures Proportional(Layers(labels, strata, rows, Y, X), c)
  {
    var ls := Layers(labels, strata, rows, Y, X);
    forall h | 0 <= h < |ls|
      ensures ls[h].Yp == Scale(c, ls[h].Xp) && ls[h].ys == Scale(c, ls[h].xs)
    {
      PickScaled(c, Y, X, Members(labels, strata[h]));
      PickScaled(c, Y, X, Within(rows, labels, strata[h]));
    }
  }

  /** The education half of `CombinedTotalExact`: `xbarSt` is the population
      mean of education. */
  lemma EducationMeanExact(labels: seq<string>, rows: seq<nat>, Y: seq<real>, X: seq<real>)
    requires |labels| > 0 && |Y| == |labels| && |X| == |labels|
    requires forall k :: 0 <= k < |rows| ==> rows[k] < |labels|
    requires var ls := Layers(labels, Distinct(labels), rows, Y, X);
      Populated(ls) && Sampled(Swapped(ls)) &&
      forall h :: 0 <= h < |ls| ==> Mean(ls[h].xs) == Mean(ls[h].Xp)
    ensures StratifiedMean(Swapped(Layers(labels, Distinct(labels), rows, Y, X)), |labels|) == Mean(X)
  {
    var ls := Layers(labels, Distinct(labels), rows, Y, X);
    var sw := Layers(labels, Distinct(labels), rows, X, Y);
    SwappedLayers(labels, Distinct(labels), rows, Y, X);
    assert sw == Swapped(ls);
    LayersPopulated(labels, rows, X, Y);
    forall h | 0 <= h < |sw|
      ensures Mean(sw[h].ys) == Mean(sw[h].Yp)
    {
      assert sw[h] == Layer(ls[h].Xp, ls[h].Yp, ls[h].xs, ls[h].ys);
    }
    StratifiedMeanExact(labels, rows, X, Y);
  }

  /** `(y / k) / (x / k) · x == y`. */
  lemma MeansRatio(ybar: real, xbar: real, y: real, x: real, k: real)
    requires x != 0.0 && k > 0.0 && ybar == y / k && xbar == x / k
    ensures xbar != 0.0 && ybar / xbar * x == y
  {
    assert ybar / xbar == y / x;
  }
}
