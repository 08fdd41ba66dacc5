/** The per-stratum figures of class `SSU` in `klase/Sampling.py`: the
    stratified mean and its variance (`describe`), the separate and the
    combined ratio estimates (`kolicnickoOcenjivanje`) and the separate
    regression estimate (`regresionoOcenjivanje`).

    Every figure is a function of the LAYERS: for each stratum, the wages and
    years of education of its population rows and of its sampled rows.
    pandas aligns the per-stratum series of the source on the stratum
    label; here they are sequences in one common order of the strata. */
module Strata {
  import opened Outcomes
  import opened Stats
  import opened Frames
  import opened Allocation
  import opened Pearson

  /** One stratum: population wages `Yp` and education `Xp`, sample wages
      `ys` and education `xs`. */
  datatype Layer = Layer(Yp: seq<real>, Xp: seq<real>, ys: seq<real>, xs: seq<real>)

  /** The layer of stratum `s` when `Y` and `X` are the population's wage
      and education columns and `rows` the drawn rows. */
  function LayerOf(labels: seq<string>, rows: seq<nat>, Y: seq<real>, X: seq<real>, s: string): (l: Layer)
    requires |Y| == |labels| && |X| == |labels|
    requires forall k :: 0 <= k < |rows| ==> rows[k] < |labels|
    ensures l.Yp == Pick(Y, Members(labels, s)) && l.Xp == Pick(X, Members(labels, s))
    ensures l.ys == Pick(Y, Within(rows, labels, s)) && l.xs == Pick(X, Within(rows, labels, s))
  {
    var mem := Members(labels, s);
    var got := Within(rows, labels, s);
    Layer(Pick(Y, mem), Pick(X, mem), Pick(Y, got), Pick(X, got))
  }

  /** `groupby('Strata')` of the population and of the sample, stratum by
      stratum in the order of `strata`. */
  function Layers(labels: seq<string>, strata: seq<string>, rows: seq<nat>, Y: seq<real>, X: seq<real>)
    : (r: seq<Layer>)
    requires |Y| == |labels| && |X| == |labels|
    requires forall k :: 0 <= k < |rows| ==> rows[k] < |labels|
    ensures |r| == |strata|
    ensures forall h :: 0 <= h < |strata| ==> r[h] == LayerOf(labels, rows, Y, X, strata[h])
  {
    seq(|strata|, h requires 0 <= h < |strata| => LayerOf(labels, rows, Y, X, strata[h]))
  }

  /** Both columns of a layer have one value per row, population and sample. */
  predicate Paired(ls: seq<Layer>)
  {
    forall h :: 0 <= h < |ls| ==> |ls[h].Yp| == |ls[h].Xp| && |ls[h].ys| == |ls[h].xs|
  }

  /** Every stratum has rows in the population. */
  predicate Populated(ls: seq<Layer>)
  {
    forall h :: 0 <= h < |ls| ==> |ls[h].Yp| > 0
  }

  /** Every stratum has rows in the sample: otherwise the series indexed by
      the sampled strata do not line up with those indexed by all of them. */
  predicate Sampled(ls: seq<Layer>)
  {
    forall h :: 0 <= h < |ls| ==> |ls[h].ys| > 0
  }

  /** No stratum has rows in the sample. */
  predicate Unsampled(ls: seq<Layer>)
  {
    forall h :: 0 <= h < |ls| ==> |ls[h].ys| == 0
  }

  /** Every stratum has two sampled rows, so its sample variance is a number. */
  predicate Spread(ls: seq<Layer>)
  {
    forall h :: 0 <= h < |ls| ==> |ls[h].ys| >= 2
  }

  /** No stratum has more sampled rows than population rows. */
  predicate Nested(ls: seq<Layer>)
  {
    forall h :: 0 <= h < |ls| ==> |ls[h].ys| <= |ls[h].Yp|
  }

  // ------------------------------------------------------------ counts

  /** `Nh`: the population size of every stratum. */
  function Sizes(ls: seq<Layer>): (r: seq<real>)
    ensures |r| == |ls| && forall h :: 0 <= h < |ls| ==> r[h] == |ls[h].Yp| as real
  {
    seq(|ls|, h requires 0 <= h < |ls| => |ls[h].Yp| as real)
  }

  /** `Wh = Nh / N`. */
  function Weights(ls: seq<Layer>, N: nat): (r: seq<real>)
    requires N > 0
    ensures |r| == |ls| && forall h :: 0 <= h < |ls| ==> r[h] == |ls[h].Yp| as real / N as real
  {
    seq(|ls|, h requires 0 <= h < |ls| => |ls[h].Yp| as real / N as real)
  }

  /** `ybarh`: the sample mean wage of every stratum. */
  function SampleMeans(ls: seq<Layer>): (r: seq<real>)
    requires Sampled(ls)
    ensures |r| == |ls| && forall h :: 0 <= h < |ls| ==> r[h] == Mean(ls[h].ys)
  {
    seq(|ls|, h requires 0 <= h < |ls| => Mean(ls[h].ys))
  }

  /** `S2h`: the sample variance of the wages in every stratum. */
  function Variances(ls: seq<Layer>): (r: seq<real>)
    requires Spread(ls)
    ensures |r| == |ls| && forall h :: 0 <= h < |ls| ==> r[h] == Variance(ls[h].ys)
    ensures forall h :: 0 <= h < |ls| ==> 0.0 <= r[h]
  {
    seq(|ls|, h requires 0 <= h < |ls| => Variance(ls[h].ys))
  }

  /** The wage total of every stratum. */
  function Totals(ls: seq<Layer>): (r: seq<real>)
    ensures |r| == |ls| && forall h :: 0 <= h < |ls| ==> r[h] == Sum(ls[h].Yp)
  {
    seq(|ls|, h requires 0 <= h < |ls| => Sum(ls[h].Yp))
  }

  // ---------------------------------------------------- stratified mean

  /** `ybarSt = Nh @ ybarh / N`, which weighs each stratum's sample mean by
      its share `Wh` of the population. */
  function StratifiedMean(ls: seq<Layer>, N: nat): (r: real)
    requires Sampled(ls) && N > 0
    ensures r == Dot(Weights(ls, N), SampleMeans(ls))
  {
    DotDivided(Weights(ls, N), Sizes(ls), SampleMeans(ls), N as real);
    Dot(Sizes(ls), SampleMeans(ls)) / N as real
  }

  /** When every stratum's sample mean is its population mean, `Nh @ ybarh`
      is the sum of the stratum totals. */
  lemma {:induction false} SizesTimesMeans(ls: seq<Layer>)
    requires Sampled(ls) && Populated(ls)
    requires forall h :: 0 <= h < |ls| ==> Mean(ls[h].ys) == Mean(ls[h].Yp)
    ensures Dot(Sizes(ls), SampleMeans(ls)) == Sum(Totals(ls))
  {
    if |ls| > 0 {
      var rest := ls[1..];
      SizesTimesMeans(rest);
      assert Sizes(ls)[1..] == Sizes(rest);
      assert SampleMeans(ls)[1..] == SampleMeans(rest);
      assert Totals(ls)[1..] == Totals(rest);
      CountTimesMean(ls[0].Yp);
    }
  }

  /** `k · (Σ s / k) == Σ s`. */
  lemma CountTimesMean(s: seq<real>)
    requires |s| > 0
    ensures |s| as real * Mean(s) == Sum(s)
  {
  }

  /** The strata of a population partition it: their wage totals add up to
      the population total. */
  lemma TotalsAddUp(labels: seq<string>, rows: seq<nat>, Y: seq<real>, X: seq<real>)
    requires |Y| == |labels| && |X| == |labels|
    requires forall k :: 0 <= k < |rows| ==> rows[k] < |labels|
    ensures Sum(Totals(Layers(labels, Distinct(labels), rows, Y, X))) == Sum(Y)
  {
    var d := Distinct(labels);
    var all := Positions(|labels|);
    var ls := Layers(labels, d, rows, Y, X);
    assert Totals(ls) == GroupSums(all, labels, d, Y);
    SumPartition(all, labels, d, Y);
    assert Pick(Y, all) == Y;
  }

  /** With every stratum's sample mean equal to its population mean, the
      stratified mean is the population mean: the estimator is exact there. */
  lemma StratifiedMeanExact(labels: seq<string>, rows: seq<nat>, Y: seq<real>, X: seq<real>)
    requires |labels| > 0 && |Y| == |labels| && |X| == |labels|
    requires forall k :: 0 <= k < |rows| ==> rows[k] < |labels|
    requires var ls := Layers(labels, Distinct(labels), rows, Y, X);
      Sampled(ls) && Populated(ls) && forall h :: 0 <= h < |ls| ==> Mean(ls[h].ys) == Mean(ls[h].Yp)
    ensures StratifiedMean(Layers(labels, Distinct(labels), rows, Y, X), |labels|) == Mean(Y)
  {
    var ls := Layers(labels, Distinct(labels), rows, Y, X);
    SizesTimesMeans(ls);
    TotalsAddUp(labels, rows, Y, X);
  }

  /** Every stratum of a population has at least one row. */
  lemma LayersPopulated(labels: seq<string>, rows: seq<nat>, Y: seq<real>, X: seq<real>)
    requires |Y| == |labels| && |X| == |labels|
    requires forall k :: 0 <= k < |rows| ==> rows[k] < |labels|
    ensures Populated(Layers(labels, Distinct(labels), rows, Y, X))
    ensures Paired(Layers(labels, Distinct(labels), rows, Y, X))
  {
    forall h | 0 <= h < |Distinct(labels)|
      ensures |Members(labels, Distinct(labels)[h])| > 0
    {
      StratumPopulated(labels, h);
    }
  }

  lemma StratumPopulated(labels: seq<string>, h: nat)
    requires h < |Distinct(labels)|
    ensures |Members(labels, Distinct(labels)[h])| > 0
  {
    var s := Distinct(labels)[h];
    DistinctFromLabels(labels, h);
    var i :| 0 <= i < |labels| && labels[i] == s;
    MembersExactly(labels, s, i);
  }

  // ------------------------------------------- variance of the mean

  /** `VybarSt` as `describe` computes it: `((1 - f) / N) · Wh @ S2h`. */
  function VarianceAsWritten(ls: seq<Layer>, N: nat, n: nat): (r: real)
    requires Spread(ls) && N > 0
    ensures n > 0 ==> r == (n as real / N as real) * StratifiedVariance(ls, N, n)
  {
    var g := 1.0 - n as real / N as real;
    assert n > 0 ==> g / N as real == (n as real / N as real) * (g / n as real);
    (g / N as real) * Dot(Weights(ls, N), Variances(ls))
  }

  /** The variance of the stratified mean under proportional allocation:
      `((1 - f) / n) · Wh @ S2h`. */
  function StratifiedVariance(ls: seq<Layer>, N: nat, n: nat): (r: real)
    requires Spread(ls) && N > 0 && n > 0
    ensures n <= N ==> 0.0 <= r
  {
    ShrunkSpreadNonNegative(ls, N, n);
    Shrink(N, n) * Dot(Weights(ls, N), Variances(ls))
  }

  /** `(1 - f) / n` with `f = n / N`. */
  function Shrink(N: nat, n: nat): real
    requires N > 0 && n > 0
  {
    (1.0 - n as real / N as real) / n as real
  }

  /** `Wh² (1 - fh) S2h / nh` for every stratum, `fh = nh / Nh`. */
  function TextbookTerms(ls: seq<Layer>, N: nat): (r: seq<real>)
    requires Spread(ls) && Populated(ls) && N > 0
    ensures |r| == |ls|
    ensures forall h :: 0 <= h < |ls| ==>
      r[h] == TextbookTerm(Weights(ls, N)[h], |ls[h].ys|, |ls[h].Yp|, Variances(ls)[h])
  {
    seq(|ls|, h requires 0 <= h < |ls| =>
      TextbookTerm(Weights(ls, N)[h], |ls[h].ys|, |ls[h].Yp|, Variances(ls)[h]))
  }

  function TextbookTerm(W: real, nh: nat, Nh: nat, S2: real): real
    requires nh > 0 && Nh > 0
  {
    W * W * (1.0 - nh as real / Nh as real) * S2 / nh as real
  }

  /** The variance of a stratified mean for any allocation:
      `Σ Wh² (1 - fh) S2h / nh`. */
  function TextbookVariance(ls: seq<Layer>, N: nat): real
    requires Spread(ls) && Populated(ls) && N > 0
  {
    Sum(TextbookTerms(ls, N))
  }

  /** Every stratum sampled in proportion to its size: `nh / Nh == n / N`. */
  predicate Proportional(ls: seq<Layer>, N: nat, n: nat)
  {
    forall h :: 0 <= h < |ls| ==> |ls[h].ys| * N == n * |ls[h].Yp|
  }

  /** Under proportional allocation the corrected formula is the textbook
      variance of the stratified mean. */
  lemma ProportionalVariance(ls: seq<Layer>, N: nat, n: nat)
    requires Spread(ls) && Populated(ls) && N > 0 && n > 0 && Proportional(ls, N, n)
    ensures StratifiedVariance(ls, N, n) == TextbookVariance(ls, N)
  {
    var W, S := ScaledTerms(ls, N, n);
    SumScale(Shrink(N, n), Products(W, S));
    SumProducts(W, S);
  }

  /** The two formulas over the series `Wh` and `S2h`: every textbook term
      is the corrected factor times `Wh · S2h`. */
  lemma ScaledTerms(ls: seq<Layer>, N: nat, n: nat) returns (W: seq<real>, S: seq<real>)
    requires Spread(ls) && Populated(ls) && N > 0 && n > 0 && Proportional(ls, N, n)
    ensures |W| == |S|
    ensures StratifiedVariance(ls, N, n) == Shrink(N, n) * Dot(W, S)
    ensures TextbookVariance(ls, N) == Sum(Scale(Shrink(N, n), Products(W, S)))
  {
    W, S := Weights(ls, N), Variances(ls);
    var t := TextbookTerms(ls, N);
    EveryTermScaled(ls, N, n, t, W, S);
  }

  lemma EveryTermScaled(ls: seq<Layer>, N: nat, n: nat, t: seq<real>, W: seq<real>, S: seq<real>)
    requires Spread(ls) && Populated(ls) && N > 0 && n > 0 && Proportional(ls, N, n)
    requires t == TextbookTerms(ls, N) && W == Weights(ls, N) && S == Variances(ls)
    ensures |W| == |S|
    ensures t == Scale(Shrink(N, n), Products(W, S))
  {
    var c, P := Shrink(N, n), Products(W, S);
    forall h | 0 <= h < |t|
      ensures t[h] == Scale(c, P)[h]
    {
      ProportionalTerm(W[h], |ls[h].ys|, |ls[h].Yp|, N, n, S[h]);
    }
  }

  /** One stratum's term, when `nh · N == n · Nh`. */
  lemma ProportionalTerm(W: real, nh: nat, Nh: nat, N: nat, n: nat, S2: real)
    requires nh > 0 && Nh > 0 && N > 0 && n > 0 && nh * N == n * Nh && W == Nh as real / N as real
    ensures TextbookTerm(W, nh, Nh, S2) == Shrink(N, n) * (W * S2)
  {
    SameFraction(nh as real, Nh as real, n as real, N as real);
    var g := 1.0 - n as real / N as real;
    assert W / nh as real == 1.0 / n as real by {
      SameFraction(Nh as real, N as real, nh as real, n as real);
    }
    assert TextbookTerm(W, nh, Nh, S2) == W * (W / nh as real) * g * S2;
  }

  /** `a / b == c / d` when `a·d == c·b`. */
  lemma SameFraction(a: real, b: real, c: real, d: real)
    requires b > 0.0 && d > 0.0 && a * d == c * b
    ensures a / b == c / d
  {
    assert a / b == (a * d) / (b * d);
    assert c / d == (c * b) / (d * b);
  }

  /** One stratum of four rows, two of them sampled, in proportion: the
      formula of `describe` gives 0.25 where the corrected formula gives 0.5. */
  lemma AsWrittenUnderstates()
    ensures var ls := [Layer([0.0, 2.0, 0.0, 2.0], [1.0, 1.0, 1.0, 1.0], [0.0, 2.0], [1.0, 1.0])];
      && Spread(ls) && Populated(ls) && Proportional(ls, 4, 2)
      && VarianceAsWritten(ls, 4, 2) == 0.25
      && TextbookVariance(ls, 4) == 0.5
      && StratifiedVariance(ls, 4, 2) == 0.5
  {
    var ls := [Layer([0.0, 2.0, 0.0, 2.0], [1.0, 1.0, 1.0, 1.0], [0.0, 2.0], [1.0, 1.0])];
    var ys := [0.0, 2.0];
    assert Sum(ys) == 2.0 by {
      assert ys[1..] == [2.0];
    }
    var d := SquaredDeviations(ys, Mean(ys));
    assert d == [1.0, 1.0];
    assert Sum(d) == 2.0 by {
      assert d[1..] == [1.0];
    }
    assert Variances(ls) == [2.0];
    assert Weights(ls, 4) == [1.0];
    assert Dot([1.0], [2.0]) == 2.0;
  }

  /** `(1 - f) / n · Wh @ S2h` is not negative for a sample no larger than
      the population. */
  lemma ShrunkSpreadNonNegative(ls: seq<Layer>, N: nat, n: nat)
    requires Spread(ls) && 0 < n && 0 < N
    ensures n <= N ==> 0.0 <= Shrink(N, n) * Dot(Weights(ls, N), Variances(ls))
  {
    if n > N {
      return;
    }
    var W, S := Weights(ls, N), Variances(ls);
    forall h | 0 <= h < |ls|
      ensures 0.0 <= W[h]
    {
      DivNonNegative(|ls[h].Yp| as real, N as real);
    }
    DotNonNegative(W, S);
    var g := 1.0 - n as real / N as real;
    FractionAtMostOne(n, N);
    DivNonNegative(g, n as real);
    MulNonNegative(g / n as real, Dot(W, S));
  }

  /** The sampling fraction `n / N` of a sample no larger than its
      population is at most 1. */
  lemma FractionAtMostOne(n: nat, N: nat)
    requires 0 < N && n <= N
    ensures n as real / N as real <= 1.0
  {
    var q := n as real / N as real;
    assert q * N as real == n as real;
    if q > 1.0 {
      MulMonotone(1.0, q, N as real);
    }
  }

  lemma DivNonNegative(x: real, d: real)
    requires 0.0 <= x && 0.0 < d
    ensures 0.0 <= x / d
  {
  }

  /** The dot product of two series of non-negative terms is not negative. */
  lemma {:induction false} DotNonNegative(a: seq<real>, b: seq<real>)
    requires |a| == |b|
    requires forall h :: 0 <= h < |a| ==> 0.0 <= a[h] && 0.0 <= b[h]
    ensures 0.0 <= Dot(a, b)
  {
    if |a| > 0 {
      DotNonNegative(a[1..], b[1..]);
      MulNonNegative(a[0], b[0]);
    }
  }
}
