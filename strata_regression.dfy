/** The separate regression estimate of `SSU.regresionoOcenjivanje` in
    `klase/Sampling.py`: every stratum's sample mean wage is moved along
    that stratum's own fitted line by the gap between the population's and
    the sample's mean education, and the strata are weighed by their shares
    `Wh`.  The slopes come from the per-stratum `ONK` fits. */
module StrataRegression {
  import opened Stats
  import opened Pearson
  import opened Strata
  import opened StrataRatio

  /** `ybarlrh = ybarh + bh (Xbarh - xbarh)`, one per stratum. */
  function RegressionMeans(ls: seq<Layer>, b: seq<real>): (r: seq<real>)
    requires Sampled(ls) && Populated(ls) && Paired(ls) && |b| == |ls|
    ensures |r| == |ls|
    ensures forall h :: 0 <= h < |ls| ==>
      r[h] == Mean(ls[h].ys) + b[h] * (Mean(ls[h].Xp) - Mean(ls[h].xs))
  {
    seq(|ls|, h requires 0 <= h < |ls| => Mean(ls[h].ys) + b[h] * (Mean(ls[h].Xp) - Mean(ls[h].xs)))
  }

  /** `ybarlrs = Wh @ ybarlrh`. */
  function RegressionMean(ls: seq<Layer>, N: nat, b: seq<real>): (r: real)
    requires Sampled(ls) && Populated(ls) && Paired(ls) && |b| == |ls| && N > 0
    ensures r == StratifiedMean(ls, N) + Dot(Weights(ls, N), Corrections(ls, b))
  {
    var W, m, c := Weights(ls, N), SampleMeans(ls), Corrections(ls, b);
    assert RegressionMeans(ls, b) == Plus(m, c);
    DotPlus(W, m, c);
    Dot(W, RegressionMeans(ls, b))
  }

  /** Where every stratum's sample has the population's mean education the
      regression moves nothing: whatever the slopes, the estimate is the
      stratified mean. */
  lemma RegressionMeanAtBalance(ls: seq<Layer>, N: nat, b: seq<real>)
    requires Sampled(ls) && Populated(ls) && Paired(ls) && |b| == |ls| && N > 0
    requires forall h :: 0 <= h < |ls| ==> Mean(ls[h].xs) == Mean(ls[h].Xp)
    ensures RegressionMean(ls, N, b) == StratifiedMean(ls, N)
  {
    forall h | 0 <= h < |ls|
      ensures RegressionMeans(ls, b)[h] == SampleMeans(ls)[h]
    {
      assert Mean(ls[h].Xp) - Mean(ls[h].xs) == 0.0;
    }
    assert RegressionMeans(ls, b) == SampleMeans(ls);
  }

  /** `bh (Xbarh - xbarh)`, one per stratum. */
  function Corrections(ls: seq<Layer>, b: seq<real>): (r: seq<real>)
    requires Sampled(ls) && Populated(ls) && Paired(ls) && |b| == |ls|
    ensures |r| == |ls|
    ensures forall h :: 0 <= h < |ls| ==> r[h] == b[h] * (Mean(ls[h].Xp) - Mean(ls[h].xs))
  {
    seq(|ls|, h requires 0 <= h < |ls| => b[h] * (Mean(ls[h].Xp) - Mean(ls[h].xs)))
  }

  /** Weighing a sum of two series is adding the two weighted sums. */
  lemma {:induction false} DotPlus(w: seq<real>, a: seq<real>, c: seq<real>)
    requires |w| == |a| == |c|
    ensures Dot(w, Plus(a, c)) == Dot(w, a) + Dot(w, c)
  {
    if |w| > 0 {
      assert Plus(a, c)[1..] == Plus(a[1..], c[1..]);
      DotPlus(w[1..], a[1..], c[1..]);
    }
  }

  // ------------------------------------------------------------- variance

  /** `Wh² (1 - fh) / nh`, `fh = nh / Nh`. */
  function RegressionFactors(ls: seq<Layer>, N: nat): (r: seq<real>)
    requires Sampled(ls) && Populated(ls) && N > 0
    ensures |r| == |ls|
    ensures forall h :: 0 <= h < |ls| ==>
      r[h] == Weights(ls, N)[h] * Weights(ls, N)[h] * (1.0 - |ls[h].ys| as real / |ls[h].Yp| as real)
              / |ls[h].ys| as real
  {
    var W := Weights(ls, N);
    seq(|ls|, h requires 0 <= h < |ls| =>
      W[h] * W[h] * (1.0 - |ls[h].ys| as real / |ls[h].Yp| as real) / |ls[h].ys| as real)
  }

  /** `S2h (1 - ρh²)`, one per stratum. */
  function ResidualSpreads(ls: seq<Layer>, rho: seq<real>): (r: seq<real>)
    requires Spread(ls) && |rho| == |ls|
    ensures |r| == |ls|
    ensures forall h :: 0 <= h < |ls| ==> r[h] == Variances(ls)[h] * (1.0 - rho[h] * rho[h])
  {
    var S := Variances(ls);
    seq(|ls|, h requires 0 <= h < |ls| => S[h] * (1.0 - rho[h] * rho[h]))
  }

  /** The square of `Sybarlrs`: `Wh² (1 - fh) / nh @ S2h (1 - ρh²)`. */
  /** With no stratum sampled beyond its size and every correlation in
      [-1, 1], the variance of the regression estimate is a number between 0
      and the variance of the plain stratified mean: the regression never
      widens the interval. */
  function RegressionVariance(ls: seq<Layer>, N: nat, rho: seq<real>): (r: real)
    requires Spread(ls) && Populated(ls) && |rho| == |ls| && N > 0
    ensures Nested(ls) && InUnitRange(rho) ==>
      0.0 <= r <= TextbookVariance(ls, N)
  {
    ResidualTermsBounded(ls, N, rho);
    Dot(RegressionFactors(ls, N), ResidualSpreads(ls, rho))
  }

  /** `Wh² (1 - fh) / nh @ S2h (1 - ρh²)` lies between 0 and
      `Σ Wh² (1 - fh) S2h / nh`. */
  lemma ResidualTermsBounded(ls: seq<Layer>, N: nat, rho: seq<real>)
    requires Spread(ls) && Populated(ls) && |rho| == |ls| && N > 0
    ensures Nested(ls) && InUnitRange(rho) ==>
      0.0 <= Dot(RegressionFactors(ls, N), ResidualSpreads(ls, rho)) <= TextbookVariance(ls, N)
  {
    if !(Nested(ls) && InUnitRange(rho)) {
      return;
    }
    var a, t := Products(RegressionFactors(ls, N), ResidualSpreads(ls, rho)), TextbookTerms(ls, N);
    TermsBounded(ls, N, rho, a, t);
    SumProducts(RegressionFactors(ls, N), ResidualSpreads(ls, rho));
    SumNonNegative(a);
    SumMonotone(a, t);
  }

  lemma TermsBounded(ls: seq<Layer>, N: nat, rho: seq<real>, a: seq<real>, t: seq<real>)
    requires Spread(ls) && Populated(ls) && Nested(ls) && |rho| == |ls| && N > 0
    requires forall h :: 0 <= h < |rho| ==> -1.0 <= rho[h] <= 1.0
    requires a == Products(RegressionFactors(ls, N), ResidualSpreads(ls, rho)) && t == TextbookTerms(ls, N)
    ensures |a| == |t| && forall h :: 0 <= h < |a| ==> 0.0 <= a[h] <= t[h]
  {
    forall h | 0 <= h < |a|
      ensures 0.0 <= a[h] <= t[h]
    {
      var W, nh, Nh, S2, g, s := TermParts(ls, N, rho, h);
      TermBounded(W, nh, Nh, S2, rho[h], g, s);
    }
  }

  /** The scalars that make up stratum `h`'s term of both variances. */
  lemma TermParts(ls: seq<Layer>, N: nat, rho: seq<real>, h: nat)
      returns (W: real, nh: nat, Nh: nat, S2: real, g: real, s: real)
    requires Spread(ls) && Populated(ls) && Nested(ls) && |rho| == |ls| && N > 0 && h < |ls|
    ensures 0 < nh <= Nh && 0.0 <= S2
    ensures g == W * W * (1.0 - nh as real / Nh as real) / nh as real
    ensures s == S2 * (1.0 - rho[h] * rho[h])
    ensures Products(RegressionFactors(ls, N), ResidualSpreads(ls, rho))[h] == g * s
    ensures TextbookTerms(ls, N)[h] == TextbookTerm(W, nh, Nh, S2)
  {
    W, nh, Nh, S2 := Weights(ls, N)[h], |ls[h].ys|, |ls[h].Yp|, Variances(ls)[h];
    g, s := RegressionFactors(ls, N)[h], ResidualSpreads(ls, rho)[h];
  }

  /** One stratum: `Wh² (1 - fh) / nh · S2h (1 - ρh²)` lies between 0 and
      `Wh² (1 - fh) S2h / nh`. */
  lemma TermBounded(W: real, nh: nat, Nh: nat, S2: real, rho: real, g: real, s: real)
    requires 0 < nh <= Nh && 0.0 <= S2 && -1.0 <= rho <= 1.0
    requires g == W * W * (1.0 - nh as real / Nh as real) / nh as real
    requires s == S2 * (1.0 - rho * rho)
    ensures 0.0 <= g * s <= TextbookTerm(W, nh, Nh, S2)
  {
    FactorNonNegative(W, nh, Nh, g);
    SquareAtMostOne(rho);
    MulNonNegative(S2, 1.0 - rho * rho);
    MulNonNegative(g, s);
    MulMonotone(s, S2, g);
    assert s * g == g * s;
    assert TextbookTerm(W, nh, Nh, S2) == S2 * g;
  }

  lemma FactorNonNegative(W: real, nh: nat, Nh: nat, g: real)
    requires 0 < nh <= Nh && g == W * W * (1.0 - nh as real / Nh as real) / nh as real
    ensures 0.0 <= g
  {
    assert nh as real / Nh as real <= 1.0 by {
      assert nh as real / Nh as real <= Nh as real / Nh as real;
    }
    MulSelfNonNegative(W);
    MulNonNegative(W * W, 1.0 - nh as real / Nh as real);
    DivNonNegative(W * W * (1.0 - nh as real / Nh as real), nh as real);
  }

  lemma SquareAtMostOne(rho: real)
    requires -1.0 <= rho <= 1.0
    ensures 0.0 <= 1.0 - rho * rho
  {
    MulNonNegative(1.0 - rho, 1.0 + rho);
    assert (1.0 - rho) * (1.0 + rho) == 1.0 - rho * rho;
  }
}
