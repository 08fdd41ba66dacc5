/** Class `SSU` of `klase/Sampling.py`: a stratified random sample.  The
    population is split into strata by the joined values of the chosen
    columns, every stratum is sampled in proportion to its size, and the
    stages `describe`, `kolicnickoOcenjivanje` and `regresionoOcenjivanje`
    estimate the mean wage from the strata, each leaving figures behind for
    the next.

    The figures themselves are the functions of `Strata`, `StrataRatio` and
    `StrataRegression`; this module keeps the object's state and the order
    in which the source raises. */
module StratifiedSurvey {
  import opened Outcomes
  import opened Stats
  import opened Levels
  import opened Frames
  import opened Pearson
  import opened Strata
  import opened StrataRatio
  import opened StrataRegression
  import LeastSquares
  import Allocation
  import Survey
  import Resampling

  /** The education column, read from the sample and the population. */
  const Education: string := "obrazovanje"

  /** The root the oracle `sqrt` (`np.sqrt`) gives for `v`. */
  function Root(sqrt: real -> real, v: real): real
  {
    sqrt(v)
  }

  // ------------------------------------------------------------- the draw

  /** What `__init__` keeps besides the checks it inherits: the stratum
      label of every population row, the sizes asked of every stratum, the
      rows drawn, and the wage and education columns. */
  datatype Draft = Draft(labels: seq<string>, alloc: seq<int>, rows: seq<nat>, Y: seq<real>, X: seq<real>)

  /** A draw of `data`: one label per row, sizes that fit their strata,
      distinct drawn rows of which each stratum holds exactly its size,
      and the two columns of the population. */
  ghost predicate Drafted(data: Frame, d: Draft)
  {
    && WellFormed(data) && 0 < data.rows && |d.labels| == data.rows
    && Lookup(data, Resampling.Target) == Success(d.Y) && |d.Y| == data.rows
    && Lookup(data, Education) == Success(d.X) && |d.X| == data.rows
    && Allocation.Fits(d.labels, Allocation.Distinct(d.labels), d.alloc)
    && (forall k :: 0 <= k < |d.rows| ==> d.rows[k] < data.rows)
    && Allocation.NoRepeats(d.rows) && |d.rows| <= data.rows
    && (forall h :: 0 <= h < |Allocation.Distinct(d.labels)| ==>
          |Allocation.Within(d.rows, d.labels, Allocation.Distinct(d.labels)[h])| == d.alloc[h])
  }

  /** `SSU.__init__(df, X, Y, n, stratumi, alfa, seed)`: first the checks
      and draw of the inherited `PSU.__init__` (whose sample is then
      replaced), then the stratum labels (a missing column raises), the
      rounded proportional sizes, the draw of every stratum with the same
      seed, and the education column (which must exist). */
  function Begin(data: Frame, design: Frame, size: int, stratumi: seq<string>, levels: seq<real>,
                 seed: int, pick: (nat, nat, int) -> seq<nat>, show: real -> string): (r: Result<Draft>)
    requires WellFormed(data) && WellFormed(design) && design.rows == data.rows && Survey.Picks(pick)
    ensures var s := Survey.Setup(data, design, size, None, levels, seed, pick, show);
      var lb := Allocation.Labels(data, stratumi, show);
      && (s.Failure? ==> r == Failure(s.fault))
      && (s.Success? && lb.Failure? ==> r == Failure(lb.fault))
      && (s.Success? && lb.Success? && Education !in Names(data) ==> r == Failure(MissingColumn(Education)))
      && (s.Success? && lb.Success? && Education in Names(data) ==> r.Success?)
    ensures r.Success? ==> Drafted(data, r.value) && 0 < size <= data.rows && AllInRange(levels)
    ensures r.Success? ==>
      var d := r.value;
      var strata := Allocation.Distinct(d.labels);
      && d.labels == Allocation.Labels(data, stratumi, show).value
      && d.alloc == Allocation.Allocation(d.labels, strata, size)
      && d.rows == Allocation.Stratified(d.labels, strata, d.alloc, seed, pick)
      && size as real - |strata| as real * 0.5 <= |d.rows| as real <= size as real + |strata| as real * 0.5
  {
    var s := Survey.Setup(data, design, size, None, levels, seed, pick, show);
    var lb := Allocation.Labels(data, stratumi, show);
    if s.Failure? then Failure(s.fault)
    else if lb.Failure? then Failure(lb.fault)
    else if Education !in Names(data) then Failure(MissingColumn(Education))
    else
      var labels := lb.value;
      var strata := Allocation.Distinct(labels);
      var alloc := Allocation.Allocation(labels, strata, size);
      var rows := Allocation.Stratified(labels, strata, alloc, seed, pick);
      DrawHolds(labels, alloc, seed, pick);
      Allocation.AllocationTotal(labels, size);
      LookupLength(data, Resampling.Target);
      LookupLength(data, Education);
      Success(Draft(labels, alloc, rows, Lookup(data, Resampling.Target).value, Lookup(data, Education).value))
  }

  /** The stratified draw: no row twice, no more rows than the population,
      and every stratum holding exactly the rows asked of it. */
  lemma DrawHolds(labels: seq<string>, alloc: seq<int>, seed: int, pick: (nat, nat, int) -> seq<nat>)
    requires Survey.Picks(pick) && Allocation.Fits(labels, Allocation.Distinct(labels), alloc)
    ensures var d := Allocation.Distinct(labels);
      var rows := Allocation.Stratified(labels, d, alloc, seed, pick);
      && Allocation.NoRepeats(rows) && |rows| == Allocation.Total(alloc) <= |labels|
      && forall h :: 0 <= h < |d| ==> |Allocation.Within(rows, labels, d[h])| == alloc[h]
  {
    var d := Allocation.Distinct(labels);
    Allocation.DrawShape(labels, d, alloc, seed, pick);
    Allocation.FitsWithinPopulation(labels, alloc);
    forall h | 0 <= h < |d|
      ensures |Allocation.Within(Allocation.Stratified(labels, d, alloc, seed, pick), labels, d[h])| == alloc[h]
    {
      Allocation.GroupsOfDraw(labels, d, alloc, seed, pick, h);
    }
  }

  /** Layers that are populated and paired, each holding the `alloc[h]`
      rows asked of its stratum and never more than the stratum has; a
      sampled stratum means a non-empty sample of size `n`. */
  predicate Layered(ls: seq<Layer>, alloc: seq<int>, n: nat)
  {
    && Populated(ls) && Paired(ls) && Nested(ls) && |ls| == |alloc|
    && (forall h :: 0 <= h < |ls| ==> |ls[h].ys| == alloc[h])
    && (Sampled(ls) ==> 0 < n)
  }

  /** The layers of a draw are populated, paired, and hold in every
      stratum the rows asked of it, never more than the stratum has. */
  lemma DraftLayers(data: Frame, d: Draft)
    requires Drafted(data, d)
    ensures Layered(Layers(d.labels, Allocation.Distinct(d.labels), d.rows, d.Y, d.X), d.alloc, |d.rows|)
  {
    var strata := Allocation.Distinct(d.labels);
    var ls := Layers(d.labels, strata, d.rows, d.Y, d.X);
    LayersPopulated(d.labels, d.rows, d.Y, d.X);
    if Sampled(ls) {
      SampledNotEmpty(d.labels, d.rows, d.Y, d.X);
    }
    forall h | 0 <= h < |ls|
      ensures |ls[h].ys| == d.alloc[h] <= |ls[h].Yp|
    {
      assert |ls[h].ys| == |Allocation.Within(d.rows, d.labels, strata[h])|;
    }
  }

  // ---------------------------------------------------- per-stratum fits

  /** The design of one stratum's fit: its sampled education as a frame. */
  function StratumDesign(l: Layer): (x: Frame)
    ensures WellFormed(x) && x.rows == |l.xs| && Names(x) == [Education]
  {
    Frame(|l.xs|, [Column(Education, l.xs)])
  }

  /** The slope `b['obrazovanje']` of the fit of a stratum's sampled wages
      on its sampled education with an intercept: the second coefficient
      the oracle returns for the design `[const, obrazovanje]`, or a
      singular X'X. */
  function Slope(l: Layer, fitter: (Frame, seq<real>) -> Option<LeastSquares.Estimates>): (r: Result<real>)
    requires LeastSquares.Shaped(fitter)
    ensures var e := fitter(LeastSquares.WithConst(StratumDesign(l)), l.ys);
      && (e.None? <==> r == Failure(Singular))
      && (e.Some? ==> |e.value.b| == 2 && r == Success(e.value.b[1]))
  {
    var x := LeastSquares.WithConst(StratumDesign(l));
    var e := fitter(x, l.ys);
    if e.None? then Failure(Singular) else Success(e.value.b[1])
  }

  /** The loop's fits in stratum order.  A stratum without sampled rows
      forms no group and is fitted with nothing; its place holds 0.0, which
      no later step reads (such a sample fails before any slope is used). */
  function Fitted(ls: seq<Layer>, fitter: (Frame, seq<real>) -> Option<LeastSquares.Estimates>)
    : (r: seq<Result<real>>)
    requires LeastSquares.Shaped(fitter)
    ensures |r| == |ls|
    ensures forall h :: 0 <= h < |ls| ==> r[h] == if |ls[h].ys| == 0 then Success(0.0) else Slope(ls[h], fitter)
  {
    seq(|ls|, h requires 0 <= h < |ls| => if |ls[h].ys| == 0 then Success(0.0) else Slope(ls[h], fitter))
  }

  /** `ONK().fit(x, y)` on one stratum's sample, then the coefficient
      labelled `obrazovanje`. */
  method FitStratum(l: Layer, show: real -> string, tppf: (real, int) -> real,
                    fitter: (Frame, seq<real>) -> Option<LeastSquares.Estimates>) returns (r: Result<real>)
    requires LeastSquares.Shaped(fitter) && |l.xs| == |l.ys|
    ensures r == Slope(l, fitter)
  {
    var o := LeastSquares.Ols.Create(Default);
    var model := o.value;
    var x := StratumDesign(l);
    assert !LeastSquares.HasCategory(x) by {
      assert forall c :: c in LeastSquares.CategoryNames ==> c != Education;
    }
    LeastSquares.PrepareWithoutList(x, show);
    var s := model.Fit(x, Series(Resampling.Target, l.ys), true, None, show, tppf, fitter);
    if s.Failure? {
      return Failure(s.fault);
    }
    var w := LeastSquares.WithConst(x);
    assert Names(w) == ["const", Education];
    var k :| 0 <= k < 2 && Names(w)[k] == Education &&
      fitter(w, l.ys).value.b[k] == LeastSquares.ValueAt(model.b.value, Education);
    return Success(LeastSquares.ValueAt(model.b.value, Education));
  }

  /** The loop of `regresionoOcenjivanje` over the strata: each sampled
      stratum fitted on its own, the first failing fit ending the loop. */
  method FitLayers(ls: seq<Layer>, show: real -> string, tppf: (real, int) -> real,
                   fitter: (Frame, seq<real>) -> Option<LeastSquares.Estimates>) returns (r: Result<seq<real>>)
    requires Paired(ls) && LeastSquares.Shaped(fitter)
    ensures r == Collect(Fitted(ls, fitter))
  {
    ghost var fits := Fitted(ls, fitter);
    var b: seq<real> := [];
    var h := 0;
    while h < |ls|
      invariant 0 <= h <= |ls| && |b| == h
      invariant forall g :: 0 <= g < h ==> fits[g] == Success(b[g])
    {
      var s := Success(0.0);
      if |ls[h].ys| > 0 {
        s := FitStratum(ls[h], show, tppf, fitter);
      }
      if s.Failure? {
        FirstFailure(fits, h);
        return Failure(s.fault);
      }
      b := b + [s.value];
      h := h + 1;
    }
    assert Collect(fits).value == b;
    return Success(b);
  }

  // --------------------------------------------------------------- reports

  /** The two tables `describe` shows: the mean's, and the total's, whose
      estimate and standard error are the mean's scaled by `N`. */
  function DescribeTables(mean: real, sd: real, levels: seq<real>, n: nat, Ym: real, Ytotal: real, N: nat,
                          tppf: (real, int) -> real): (seq<Survey.ConfidenceRow>, seq<Survey.ConfidenceRow>)
  {
    (Survey.Table(mean, sd, levels, n, Ym, tppf), Survey.Table(N as real * mean, N as real * sd, levels, n, Ytotal, tppf))
  }

  /** Builds the two tables of `describe`, one interval loop each. */
  method BuildTables(mean: real, sd: real, levels: seq<real>, n: nat, Ym: real, Ytotal: real, N: nat,
                     tppf: (real, int) -> real)
    returns (tables: (seq<Survey.ConfidenceRow>, seq<Survey.ConfidenceRow>))
    ensures tables == DescribeTables(mean, sd, levels, n, Ym, Ytotal, N, tppf)
  {
    var meanTable := Survey.ConfidenceTable(mean, sd, levels, n, Ym, tppf);
    var totalTable := Survey.ConfidenceTable(N as real * mean, N as real * sd, levels, n, Ytotal, tppf);
    tables := (meanTable, totalTable);
  }

  /** What `kolicnickoOcenjivanje` reports: the separate estimates of the
      mean and total with their standard errors and interval tables, and
      the combined estimates of the mean and total. */
  datatype RatioReport = RatioReport(mean: real, total: real, sdMean: real, sdTotal: real,
                                     meanTable: seq<Survey.ConfidenceRow>, totalTable: seq<Survey.ConfidenceRow>,
                                     combinedMean: real, combinedTotal: real)

  /** What `regresionoOcenjivanje` reports: the slopes, the per-stratum
      estimates, the estimate of the mean and its standard error, its table,
      and the two mean squared errors it compares. */
  datatype RegressionReport = RegressionReport(slopes: seq<real>, means: seq<real>, mean: real, sd: real,
                                               table: seq<Survey.ConfidenceRow>, squaredError: real,
                                               ratioSquaredError: real)

  /** The report of `kolicnickoOcenjivanje` from its separate total, the
      standard error of that total and its combined total: the means are
      the totals over `N`, each with its interval table. */
  function RatioFigures(total: real, sdTotal: real, combined: real, N: nat, levels: seq<real>, n: nat,
                        Ym: real, Ytotal: real, tppf: (real, int) -> real): RatioReport
    requires 0 < N
  {
    RatioReport(total / N as real, total, sdTotal / N as real, sdTotal,
                Survey.Table(total / N as real, sdTotal / N as real, levels, n, Ym, tppf),
                Survey.Table(total, sdTotal, levels, n, Ytotal, tppf),
                combined / N as real, combined)
  }

  /** Builds the ratio report, one interval loop per table. */
  method BuildRatioReport(total: real, sdTotal: real, combined: real, N: nat, levels: seq<real>, n: nat,
                          Ym: real, Ytotal: real, tppf: (real, int) -> real) returns (report: RatioReport)
    requires 0 < N
    ensures report == RatioFigures(total, sdTotal, combined, N, levels, n, Ym, Ytotal, tppf)
  {
    var mean, sdMean := total / N as real, sdTotal / N as real;
    var meanTable := Survey.ConfidenceTable(mean, sdMean, levels, n, Ym, tppf);
    var totalTable := Survey.ConfidenceTable(total, sdTotal, levels, n, Ytotal, tppf);
    report := RatioReport(mean, total, sdMean, sdTotal, meanTable, totalTable, combined / N as real, combined);
  }

  /** The report of `regresionoOcenjivanje` from its slopes, per-stratum
      estimates, estimate and standard error: the interval table of the
      estimate, its mean squared error, and the stored `SKGRs` beside it. */
  function RegressionFigures(b: seq<real>, means: seq<real>, mean: real, sd: real, levels: seq<real>, n: nat,
                             Ym: real, ratioSquaredError: real, tppf: (real, int) -> real): RegressionReport
  {
    RegressionReport(b, means, mean, sd, Survey.Table(mean, sd, levels, n, Ym, tppf),
                     Survey.SquaredError(mean - Ym, sd), ratioSquaredError)
  }

  /** Builds the regression report with one interval loop. */
  method BuildRegressionReport(b: seq<real>, means: seq<real>, mean: real, sd: real, levels: seq<real>, n: nat,
                               Ym: real, ratioSquaredError: real, tppf: (real, int) -> real)
    returns (report: RegressionReport)
    ensures report == RegressionFigures(b, means, mean, sd, levels, n, Ym, ratioSquaredError, tppf)
  {
    var table := Survey.ConfidenceTable(mean, sd, levels, n, Ym, tppf);
    report := RegressionReport(b, means, mean, sd, table, Survey.SquaredError(mean - Ym, sd), ratioSquaredError);
  }

  /** The separate ratio figures are numbers: every stratum's sample and
      population education sums are non-zero, every stratum has two
      sampled rows, and no correlation is NaN. */
  predicate SeparateFinite(ls: seq<Layer>, rs: seq<Option<real>>)
  {
    SampleBased(ls) && PopulationBased(ls) && Spread(ls) && Defined(rs) && |rs| == |ls|
  }

  /** Over the layers of a draw whose separate figures are numbers, the
      separate variance at the measured correlations is defined and not
      negative. */
  lemma SeparateVarianceDefined(ls: seq<Layer>, N: nat, n: nat, sqrt: real -> real)
    requires Paired(ls) && IsSqrt(sqrt) && 0 < n <= N && SeparateFinite(ls, Correlations(ls, sqrt))
    ensures Spread(Swapped(ls))
    ensures 0.0 <= SeparateVariance(ls, N, n, Coefficients(Correlations(ls, sqrt)), sqrt)
  {
    SwappedSpread(ls);
    CorrelationsBounded(ls, sqrt);
    assert InUnitRange(Coefficients(Correlations(ls, sqrt)));
  }

  /** Swapping wages and education keeps two sampled rows per stratum. */
  lemma SwappedSpread(ls: seq<Layer>)
    requires Paired(ls) && Spread(ls)
    ensures Spread(Swapped(ls)) && Sampled(Swapped(ls))
  {
  }

  /** A sample that reaches every stratum of a non-empty population is not
      empty. */
  lemma SampledNotEmpty(labels: seq<string>, rows: seq<nat>, Y: seq<real>, X: seq<real>)
    requires 0 < |labels| && |Y| == |labels| && |X| == |labels|
    requires forall k :: 0 <= k < |rows| ==> rows[k] < |labels|
    requires Sampled(Layers(labels, Allocation.Distinct(labels), rows, Y, X))
    ensures 0 < |rows|
  {
    var s := Allocation.Distinct(labels)[0];
    assert labels[0] in Allocation.Distinct(labels);
    assert |Layers(labels, Allocation.Distinct(labels), rows, Y, X)[0].ys| == |Allocation.Within(rows, labels, s)|;
  }

  // ------------------------------------------------------------ the object

  /** `SSU`: the population `df` with its stratum labels, the sizes asked
      of the strata, the rows drawn, the wage and education columns and
      their totals, the per-stratum layers, the levels, and the figures
      the stages leave behind (`ybarSt`, `rho`, `SKGRs`). */
  class StratifiedSample {
    var df: Frame
    var N: nat
    var n: nat
    var f: real
    var seed: int
    var alfa: seq<real>
    var labels: seq<string>
    var strata: seq<string>
    var alloc: seq<int>
    var rows: seq<nat>
    var Y: seq<real>
    var X: seq<real>
    var Ym: real
    var Ytotal: real
    var Xtotal: real
    var layers: seq<Layer>
    var ybarSt: Option<real>
    var rho: Option<seq<Option<real>>>
    var SKGRs: Option<real>

    /** The draw as `__init__` left it. */
    ghost function Drawing(): Draft
      reads this`labels, this`alloc, this`rows, this`Y, this`X
    {
      Draft(labels, alloc, rows, Y, X)
    }

    /** What `__init__` sets and no stage changes: the fields agree with the
        draw, and the layers are those of the draw. */
    ghost predicate Drawn()
      reads this`df, this`N, this`n, this`f, this`labels, this`strata, this`alloc, this`rows
      reads this`Y, this`X, this`Ym, this`Ytotal, this`Xtotal, this`layers
    {
      && Drafted(df, Drawing()) && N == df.rows
      && strata == Allocation.Distinct(labels)
      && n == |rows| && f == n as real / N as real
      && Ym == Mean(Y) && Ytotal == Sum(Y) && Xtotal == Sum(X)
      && layers == Layers(labels, strata, rows, Y, X)
    }

    /** The facts about the layers the stages rely on, and each figure a
        stage leaves behind is the one it computes: `ybarSt` only once every
        stratum is sampled, `rho` bounded, and `SKGRs` only after both of
        them.  No stage changes what `Drawn` reads, so it holds throughout. */
    ghost predicate Valid()
      reads this
    {
      && 0 < N && n <= N
      && Layered(layers, alloc, n)
      && AllInRange(alfa)
      && (ybarSt.Some? ==> Sampled(layers) && ybarSt.value == StratifiedMean(layers, N))
      && (rho.Some? ==> |rho.value| == |layers| && Bounded(rho.value))
      && (SKGRs.Some? ==> ybarSt.Some? && rho.Some?)
    }

    constructor (data: Frame, d: Draft, levels: seq<real>, seed: int)
      requires Drafted(data, d) && AllInRange(levels)
      ensures Drawn() && Valid() && Drawing() == d && df == data && alfa == levels && this.seed == seed
      ensures ybarSt.None? && rho.None? && SKGRs.None?
    {
      var distinct := Allocation.Distinct(d.labels);
      var ls := Layers(d.labels, distinct, d.rows, d.Y, d.X);
      DraftLayers(data, d);
      assert d == Draft(d.labels, d.alloc, d.rows, d.Y, d.X);
      df, N, n := data, data.rows, |d.rows|;
      f := |d.rows| as real / data.rows as real;
      this.seed, alfa := seed, levels;
      labels, strata, alloc, rows := d.labels, distinct, d.alloc, d.rows;
      Y, X := d.Y, d.X;
      Ym, Ytotal, Xtotal := Mean(d.Y), Sum(d.Y), Sum(d.X);
      layers := ls;
      ybarSt, rho, SKGRs := None, None, None;
    }

    /** `SSU(df, X, Y, n, stratumi, alfa, seed)`. */
    static method Create(data: Frame, design: Frame, size: int, stratumi: seq<string>, levels: seq<real>,
                         seed: int, pick: (nat, nat, int) -> seq<nat>, show: real -> string)
      returns (r: Result<StratifiedSample>)
      requires WellFormed(data) && WellFormed(design) && design.rows == data.rows && Survey.Picks(pick)
      ensures r.Failure? <==> Begin(data, design, size, stratumi, levels, seed, pick, show).Failure?
      ensures r.Failure? ==> r.fault == Begin(data, design, size, stratumi, levels, seed, pick, show).fault
      ensures r.Success? ==> fresh(r.value) && r.value.Drawn() && r.value.Valid() && r.value.alfa == levels
      ensures r.Success? ==> r.value.Drawing() == Begin(data, design, size, stratumi, levels, seed, pick, show).value
      ensures r.Success? ==> r.value.ybarSt.None? && r.value.rho.None? && r.value.SKGRs.None?
    {
      var b := Begin(data, design, size, stratumi, levels, seed, pick, show);
      if b.Failure? {
        return Failure(b.fault);
      }
      var s := new StratifiedSample(data, b.value, levels, seed);
      return Success(s);
    }

    /** `describe`: the stratified mean `ybarSt = Nh @ ybarh / N` (pandas
        refuses the product when a stratum went unsampled), kept for the
        ratio stage; then its standard error, the root of the stratified
        variance, NaN unless every stratum has two sampled rows; and the
        tables for the mean and for the total `N · ybarSt`.  The variance is
        the corrected `(1 - f) / n · Wh @ S2h`. */
    method Describe(sqrt: real -> real, tppf: (real, int) -> real)
      returns (r: Result<(seq<Survey.ConfidenceRow>, seq<Survey.ConfidenceRow>)>)
      requires Valid()
      modifies this`ybarSt
      ensures Valid()
      ensures !Sampled(layers) ==> r == Failure(Unaligned) && ybarSt == old(ybarSt)
      ensures Sampled(layers) ==> ybarSt == Some(StratifiedMean(layers, N))
      ensures Sampled(layers) && !Spread(layers) ==> r == Failure(NonFinite)
      ensures Sampled(layers) && Spread(layers) ==>
        0 < n && 0.0 <= StratifiedVariance(layers, N, n) &&
        var sd := Root(sqrt, StratifiedVariance(layers, N, n));
        r == Success(DescribeTables(ybarSt.value, sd, alfa, n, Ym, Ytotal, N, tppf))
    {
      if !Sampled(layers) {
        return Failure(Unaligned);
      }
      var mean := StratifiedMean(layers, N);
      if !Spread(layers) {
        ybarSt := Some(mean);
        return Failure(NonFinite);
      }
      var sd := Root(sqrt, StratifiedVariance(layers, N, n));
      var tables := BuildTables(mean, sd, alfa, n, Ym, Ytotal, N, tppf);
      ybarSt := Some(mean);
      return Success(tables);
    }

    /** `kolicnickoOcenjivanje`: the per-stratum correlations are stored
        first; the separate total `Σ (yh / xh) Xh` needs every stratum
        sampled; the combined estimate reads `ybarSt`, which `describe`
        must have set; `SKGRs` is stored when the separate figures are
        numbers; and the report needs the combined figures to be numbers
        too (a zero stratified education mean divides by zero). */
    method RatioEstimate(sqrt: real -> real, tppf: (real, int) -> real) returns (r: Result<RatioReport>)
      requires Valid() && IsSqrt(sqrt)
      modifies this`rho, this`SKGRs
      ensures Valid()
      ensures rho == Some(Correlations(layers, sqrt))
      ensures !Sampled(layers) ==> r == Failure(Unaligned) && SKGRs == old(SKGRs)
      ensures Sampled(layers) && ybarSt.None? ==> r == Failure(Unset("ybarSt")) && SKGRs == old(SKGRs)
      ensures Sampled(layers) && ybarSt.Some? && !SeparateFinite(layers, rho.value) ==>
        r == Failure(NonFinite) && SKGRs == old(SKGRs)
      ensures Sampled(layers) && ybarSt.Some? && SeparateFinite(layers, rho.value) ==>
        SeparateOutcome(r, sqrt, tppf)
    {
      var rs := StoreCorrelations(sqrt);
      if !Sampled(layers) {
        return Failure(Unaligned);
      }
      if ybarSt.None? {
        return Failure(Unset("ybarSt"));
      }
      if !SeparateFinite(layers, rs) {
        return Failure(NonFinite);
      }
      r := SeparateFigures(rs, sqrt, tppf);
    }

    /** What `kolicnickoOcenjivanje` leaves behind once every stratum is
        sampled, `ybarSt` is set and the separate figures are numbers: the
        separate variance is not negative, `SKGRs` is bias² + sd² of the
        separate mean, and the report holds the separate and combined
        figures unless the stratified education mean is zero. */
    ghost predicate SeparateOutcome(r: Result<RatioReport>, sqrt: real -> real, tppf: (real, int) -> real)
      reads this
      requires Valid() && rho.Some? && IsSqrt(sqrt) && Sampled(layers) && SeparateFinite(layers, rho.value)
    {
      && Spread(Swapped(layers)) && 0 < n
      && var v := SeparateVariance(layers, N, n, Coefficients(rho.value), sqrt);
         var total := SeparateTotal(layers);
         var sdTotal := Root(sqrt, v);
         && 0.0 <= v
         && SKGRs == Some(Survey.SquaredError(total / N as real - Ym, sdTotal / N as real))
         && (StratifiedMean(Swapped(layers), N) == 0.0 ==> r == Failure(NonFinite))
         && (StratifiedMean(Swapped(layers), N) != 0.0 ==>
               r == Success(RatioFigures(total, sdTotal, CombinedTotal(layers, N, Xtotal), N, alfa, n, Ym, Ytotal, tppf)))
    }

    /** `self.rho`: the correlation of education with wages inside every
        stratum, stored before anything else is checked. */
    method StoreCorrelations(sqrt: real -> real) returns (rs: seq<Option<real>>)
      requires Valid() && IsSqrt(sqrt)
      modifies this`rho
      ensures Valid() && rs == Correlations(layers, sqrt) && rho == Some(rs)
    {
      CorrelationsBounded(layers, sqrt);
      rs := Correlations(layers, sqrt);
      rho := Some(rs);
    }

    /** The rest of `kolicnickoOcenjivanje` once every stratum is sampled,
        `ybarSt` is set and the separate figures are numbers. */
    method SeparateFigures(rs: seq<Option<real>>, sqrt: real -> real, tppf: (real, int) -> real)
      returns (r: Result<RatioReport>)
      requires Valid() && IsSqrt(sqrt) && rho == Some(rs) && rs == Correlations(layers, sqrt)
      requires Sampled(layers) && ybarSt.Some? && SeparateFinite(layers, rs)
      modifies this`SKGRs
      ensures Valid()
      ensures rho == Some(rs) && SeparateOutcome(r, sqrt, tppf)
    {
      SeparateVarianceDefined(layers, N, n, sqrt);
      var coef := Coefficients(rs);
      var total := SeparateTotal(layers);
      var sdTotal := Root(sqrt, SeparateVariance(layers, N, n, coef, sqrt));
      SKGRs := Some(Survey.SquaredError(total / N as real - Ym, sdTotal / N as real));
      if StratifiedMean(Swapped(layers), N) == 0.0 {
        return Failure(NonFinite);
      }
      var report := BuildRatioReport(total, sdTotal, CombinedTotal(layers, N, Xtotal), N, alfa, n, Ym, Ytotal, tppf);
      r := Success(report);
    }

    /** `regresionoOcenjivanje`: the slopes; the per-stratum estimates
        `ybarh + bh (Xbarh - xbarh)` (with no stratum sampled the table of
        slopes has no `obrazovanje` column, and with some unsampled the
        estimates and `ybarh` have different lengths); the mean weighed by
        `Wh`; the standard error from the stored `rho` (raising when the
        ratio stage never ran); the mean squared error of this estimate next
        to the stored `SKGRs` (raising when that was never set); NaN unless
        every stratum has two sampled rows and every correlation is a
        number.  It changes nothing. */
    method RegressionEstimate(show: real -> string, tppf: (real, int) -> real, sqrt: real -> real,
                              fitter: (Frame, seq<real>) -> Option<LeastSquares.Estimates>)
      returns (r: Result<RegressionReport>)
      requires Valid() && LeastSquares.Shaped(fitter) && IsSqrt(sqrt)
      ensures var fits := Collect(Fitted(layers, fitter));
        && (fits.Failure? ==> r == Failure(fits.fault))
        && (fits.Success? && Unsampled(layers) && |layers| > 0 ==> r == Failure(MissingColumn(Education)))
        && (fits.Success? && !Sampled(layers) && !Unsampled(layers) ==> r == Failure(Unaligned))
        && (fits.Success? && Sampled(layers) && rho.None? ==> r == Failure(Unset("rho")))
        && (fits.Success? && Sampled(layers) && rho.Some? && SKGRs.None? ==> r == Failure(Unset("SKGRs")))
        && (fits.Success? && Sampled(layers) && rho.Some? && SKGRs.Some? && !Spread(layers) ==>
              r == Failure(NonFinite))
        && (fits.Success? && Sampled(layers) && rho.Some? && SKGRs.Some? && !Defined(rho.value) ==>
              r == Failure(NonFinite))
        && (fits.Success? && Sampled(layers) && rho.Some? && SKGRs.Some? && Spread(layers) && Defined(rho.value) ==>
              var b := fits.value;
              var v := RegressionVariance(layers, N, Coefficients(rho.value));
              var mean := RegressionMean(layers, N, b);
              && 0.0 <= v <= TextbookVariance(layers, N)
              && r == Success(RegressionFigures(b, RegressionMeans(layers, b), mean, Root(sqrt, v),
                                                alfa, n, Ym, SKGRs.value, tppf)))
    {
      var fits := FitLayers(layers, show, tppf, fitter);
      if fits.Failure? {
        return Failure(fits.fault);
      }
      if !Sampled(layers) {
        if Unsampled(layers) {
          return Failure(MissingColumn(Education));
        }
        return Failure(Unaligned);
      }
      if rho.None? {
        return Failure(Unset("rho"));
      }
      if SKGRs.None? {
        return Failure(Unset("SKGRs"));
      }
      if !(Spread(layers) && Defined(rho.value)) {
        return Failure(NonFinite);
      }
      var b := fits.value;
      var coef := Coefficients(rho.value);
      var sd := Root(sqrt, RegressionVariance(layers, N, coef));
      var mean := RegressionMean(layers, N, b);
      var report := BuildRegressionReport(b, RegressionMeans(layers, b), mean, sd, alfa, n, Ym, SKGRs.value, tppf);
      r := Success(report);
    }
  }
}
