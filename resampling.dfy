/** The bootstrap summary layer: `k` samples of the wage column, their
    means and standard deviations, empirical-quantile intervals, their
    half-widths and the sample size that a half-width calls for.

    A pandas statistic that comes out NaN (the mean of an empty sample, the
    deviation of a sample of fewer than two) is recorded as `None`; pandas
    skips such values when it averages or takes quantiles, and so does the
    model.
 */
module Resampling {
  import opened Outcomes
  import opened Stats
  import opened Levels
  import opened Frames

  /** The column every bootstrap sample is drawn from. */
  const Target: string := "plata"

  /** `int(len(df) * 0.1)`: a tenth of the rows, truncated. */
  function DefaultSize(rows: nat): (r: nat)
    ensures r * 10 <= rows < r * 10 + 10
  {
    rows / 10
  }

  /** Python's `int()` on a finite real: truncation toward zero. */
  function Truncate(v: real): (r: int)
    ensures 0.0 <= v ==> r as real <= v < r as real + 1.0
    ensures v < 0.0 ==> v <= r as real < v + 1.0
  {
    if 0.0 <= v then v.Floor else -((-v).Floor)
  }

  /** The row label `f"{int((1 - a) * 100)}%"` of level `a`, as its number. */
  function Label(a: real): int
  {
    Truncate((1.0 - a) * 100.0)
  }

  // --------------------------------------------------- NaN-skipping series

  /** The values pandas does not skip. */
  function Present(vals: seq<Option<real>>): (r: seq<real>)
    ensures |r| <= |vals|
    ensures forall v :: v in r <==> Some(v) in vals
  {
    if |vals| == 0 then []
    else
      var rest := Present(vals[1..]);
      assert forall o :: o in vals <==> o == vals[0] || o in vals[1..];
      if vals[0].Some? then [vals[0].value] + rest else rest
  }

  lemma {:induction false} PresentAll(vals: seq<real>)
    ensures Present(seq(|vals|, i requires 0 <= i < |vals| => Some(vals[i]))) == vals
  {
    if |vals| > 0 {
      var wrapped := seq(|vals|, i requires 0 <= i < |vals| => Some(vals[i]));
      var tail := seq(|vals| - 1, i requires 0 <= i < |vals| - 1 => Some(vals[1..][i]));
      assert wrapped[1..] == tail;
      PresentAll(vals[1..]);
    }
  }

  /** `Series.mean()`: the mean of the values present; NaN when none is. */
  function SeriesMean(vals: seq<Option<real>>): (r: Result<real>)
    ensures r.Failure? <==> forall v :: Some(v) !in vals
    ensures r.Failure? ==> r.fault == NonFinite
    ensures r.Success? ==> |Present(vals)| > 0 && r.value == Mean(Present(vals))
  {
    var p := Present(vals);
    if |p| == 0 then Failure(NonFinite)
    else
      assert p[0] in p;
      Success(Mean(p))
  }

  /** The mean of a series lies between its smallest and its largest value. */
  lemma SeriesMeanBetween(vals: seq<Option<real>>, lo: real, hi: real)
    requires exists v :: Some(v) in vals
    requires forall v :: Some(v) in vals ==> lo <= v <= hi
    ensures SeriesMean(vals).Success?
    ensures lo <= SeriesMean(vals).value <= hi
  {
    var p := Present(vals);
    assert forall i :: 0 <= i < |p| ==> p[i] in p;
    MeanBetween(p, lo, hi);
  }

  /** `uzorak.mean()`. */
  function SampleMean(s: seq<real>): (r: Option<real>)
    ensures r.None? <==> |s| == 0
  {
    if |s| == 0 then None else Some(Mean(s))
  }

  /** `uzorak.std()`, the square root of the sample variance. */
  function SampleDev(s: seq<real>, sqrt: real -> real): (r: Option<real>)
    ensures r.None? <==> |s| < 2
  {
    if |s| < 2 then None else Some(sqrt(Variance(s)))
  }

  // ------------------------------------------------------------- sampling

  /** What the model asks of the sampler `draw(column, size, seed)`:
      `Series.sample(n=size, random_state=seed)` without replacement, a
      sub-multiset of the column of the requested size. */
  ghost predicate Draws(draw: (seq<real>, nat, int) -> seq<real>)
  {
    forall c: seq<real>, m: nat, seed: int :: m <= |c| ==>
      |draw(c, m, seed)| == m && multiset(draw(c, m, seed)) <= multiset(c)
  }

  /** The means of the `k` samples drawn with seeds `seed`, `seed + 1`, ... */
  function SampleMeans(col: seq<real>, size: nat, seed: int, k: nat,
                       draw: (seq<real>, nat, int) -> seq<real>): (r: seq<Option<real>>)
    ensures |r| == k
  {
    seq(k, i requires 0 <= i < k => SampleMean(draw(col, size, seed + i)))
  }

  function SampleDevs(col: seq<real>, size: nat, seed: int, k: nat,
                      draw: (seq<real>, nat, int) -> seq<real>, sqrt: real -> real): (r: seq<Option<real>>)
    ensures |r| == k
  {
    seq(k, i requires 0 <= i < k => SampleDev(draw(col, size, seed + i), sqrt))
  }

  /** The loop of `fit`: draw `k` samples and record each one's mean and
      standard deviation, in order. */
  method Resample(col: seq<real>, size: nat, seed: int, k: nat,
                  draw: (seq<real>, nat, int) -> seq<real>, sqrt: real -> real)
    returns (means: seq<Option<real>>, devs: seq<Option<real>>)
    ensures means == SampleMeans(col, size, seed, k, draw)
    ensures devs == SampleDevs(col, size, seed, k, draw, sqrt)
  {
    means, devs := [], [];
    var i := 0;
    while i < k
      invariant 0 <= i <= k
      invariant means == SampleMeans(col, size, seed, i, draw)
      invariant devs == SampleDevs(col, size, seed, i, draw, sqrt)
    {
      var sample := draw(col, size, seed + i);
      means := means + [SampleMean(sample)];
      devs := devs + [SampleDev(sample, sqrt)];
      i := i + 1;
      assert means == SampleMeans(col, size, seed, i, draw);
      assert devs == SampleDevs(col, size, seed, i, draw, sqrt);
    }
  }

  /** A sample drawn from a column stays within the column's range. */
  lemma SampleWithin(s: seq<real>, col: seq<real>, lo: real, hi: real)
    requires multiset(s) <= multiset(col)
    requires forall j :: 0 <= j < |col| ==> lo <= col[j] <= hi
    ensures forall j :: 0 <= j < |s| ==> lo <= s[j] <= hi
  {
    forall j | 0 <= j < |s|
      ensures lo <= s[j] <= hi
    {
      assert s[j] in multiset(s);
      assert s[j] in col;
    }
  }

  /** Every recorded mean lies within the column's range, since each sample
      is drawn from the column. */
  lemma SampleMeansWithin(col: seq<real>, size: nat, seed: int, k: nat,
                          draw: (seq<real>, nat, int) -> seq<real>, lo: real, hi: real)
    requires Draws(draw) && size <= |col|
    requires forall j :: 0 <= j < |col| ==> lo <= col[j] <= hi
    ensures forall v :: Some(v) in SampleMeans(col, size, seed, k, draw) ==> lo <= v <= hi
  {
    forall v | Some(v) in SampleMeans(col, size, seed, k, draw)
      ensures lo <= v <= hi
    {
      var i :| 0 <= i < k && SampleMeans(col, size, seed, k, draw)[i] == Some(v);
      var s := draw(col, size, seed + i);
      assert SampleMean(s) == Some(v);
      assert multiset(s) <= multiset(col);
      SampleWithin(s, col, lo, hi);
      MeanBetween(s, lo, hi);
    }
  }

  // ------------------------------------------------------------ intervals

  /** One row of `interval`: the level (the row is labelled `Label(level)`)
      and the two quantiles. */
  datatype Bounds = Bounds(level: real, lower: real, upper: real)

  /** The two tails of level `a`: `a / 2` and `1 - a / 2`. */
  function LowerTail(a: real): real
  {
    a / 2.0
  }

  function UpperTail(a: real): real
  {
    1.0 - a / 2.0
  }

  /** The row for level `a`: the `a / 2` and `1 - a / 2` quantiles.  A level
      outside [0, 2] puts a quantile outside [0, 1], which raises; a series
      with nothing present gives NaN. */
  function LevelBounds(x: seq<real>, a: real): (r: Result<Bounds>)
    ensures r.Failure? <==> a < 0.0 || 2.0 < a || |x| == 0
    ensures (a < 0.0 || 2.0 < a) ==> r == Failure(QuantileOutOfRange)
    ensures 0.0 <= a <= 2.0 && |x| == 0 ==> r == Failure(NonFinite)
    ensures r.Success? ==> r.value.level == a
    ensures r.Success? ==> Quantile(x, LowerTail(a)) == Success(r.value.lower)
    ensures r.Success? ==> Quantile(x, UpperTail(a)) == Success(r.value.upper)
  {
    if a < 0.0 || 2.0 < a then Failure(QuantileOutOfRange)
    else if |x| == 0 then Failure(NonFinite)
    else Success(Bounds(a, Quantile(x, LowerTail(a)).value, Quantile(x, UpperTail(a)).value))
  }

  /** For a level in [0, 1] the lower bound does not exceed the upper one,
      and both lie between the smallest and the largest value. */
  lemma LevelBoundsOrdered(x: seq<real>, a: real)
    requires |x| > 0 && InRange(a)
    ensures LevelBounds(x, a).Success?
    ensures LevelBounds(x, a).value.lower <= LevelBounds(x, a).value.upper
    ensures exists lo :: lo in x && lo <= LevelBounds(x, a).value.lower && forall k :: 0 <= k < |x| ==> lo <= x[k]
    ensures exists hi :: hi in x && LevelBounds(x, a).value.upper <= hi && forall k :: 0 <= k < |x| ==> x[k] <= hi
  {
    QuantileMonotone(x, LowerTail(a), UpperTail(a));
    QuantileWithinRange(x, LowerTail(a));
    QuantileWithinRange(x, UpperTail(a));
    SortedEnds(x);
    var v := Sort(x);
    var b := LevelBounds(x, a).value;
    assert v[0] in x && v[0] <= b.lower && forall k :: 0 <= k < |x| ==> v[0] <= x[k];
    assert v[|x| - 1] in x && b.upper <= v[|x| - 1] && forall k :: 0 <= k < |x| ==> x[k] <= v[|x| - 1];
  }

  /** The row of every level, in order. */
  function LevelResults(x: seq<real>, levels: seq<real>): (r: seq<Result<Bounds>>)
    ensures |r| == |levels| && forall i :: 0 <= i < |levels| ==> r[i] == LevelBounds(x, levels[i])
  {
    seq(|levels|, i requires 0 <= i < |levels| => LevelBounds(x, levels[i]))
  }

  /** `interval` over `levels`: the rows in order; the first level that
      raises decides the outcome. */
  function IntervalRows(x: seq<real>, levels: seq<real>): Result<seq<Bounds>>
  {
    Collect(LevelResults(x, levels))
  }

  /** Every level in [0, 1] gives a row, one per level, in order; with
      values to work on, only a level outside [0, 2] can fail. */
  lemma IntervalRowsSucceed(x: seq<real>, levels: seq<real>)
    ensures IntervalRows(x, levels).Success? <==>
      |levels| == 0 || (|x| > 0 && forall i :: 0 <= i < |levels| ==> 0.0 <= levels[i] <= 2.0)
    ensures IntervalRows(x, levels).Success? ==> |IntervalRows(x, levels).value| == |levels|
    ensures IntervalRows(x, levels).Success? ==> forall i :: 0 <= i < |levels| ==>
      IntervalRows(x, levels).value[i] == LevelBounds(x, levels[i]).value
    ensures IntervalRows(x, levels).Failure? && |x| > 0 ==> IntervalRows(x, levels).fault == QuantileOutOfRange
  {
    var rs := LevelResults(x, levels);
    if |levels| > 0 && |x| == 0 {
      assert rs[0].Failure?;
    }
    if Collect(rs).Failure? {
      var k :| 0 <= k < |rs| && rs[k] == Failure(Collect(rs).fault);
    }
  }

  /** `d`: half the width of every interval. */
  function HalfWidths(rows: seq<Bounds>): (r: seq<real>)
    ensures |r| == |rows| && forall i :: 0 <= i < |rows| ==> r[i] == (rows[i].upper - rows[i].lower) / 2.0
  {
    seq(|rows|, i requires 0 <= i < |rows| => (rows[i].upper - rows[i].lower) / 2.0)
  }

  /** Levels in [0, 1] give half-widths that are never negative. */
  lemma HalfWidthsNonNegative(x: seq<real>, levels: seq<real>)
    requires |x| > 0 && AllInRange(levels)
    ensures IntervalRows(x, levels).Success?
    ensures forall i :: 0 <= i < |levels| ==> 0.0 <= HalfWidths(IntervalRows(x, levels).value)[i]
  {
    forall i | 0 <= i < |levels|
      ensures LevelBounds(x, levels[i]).Success?
      ensures LevelBounds(x, levels[i]).value.lower <= LevelBounds(x, levels[i]).value.upper
    {
      LevelBoundsOrdered(x, levels[i]);
    }
    IntervalRowsSucceed(x, levels);
  }

  // ---------------------------------------------------------- sample size

  /** `1 / (1 / n0 + 1 / N)` with `n0 = num / d²`: the finite-population
      correction of the size `n0`, which stays strictly between 0 and `N`. */
  function Corrected(num: real, d: real, N: nat): (r: real)
    requires 0.0 < num && d != 0.0 && 0 < N
    ensures 0.0 < r < N as real
  {
    Square(d);
    var n0 := num / (d * d);
    Reciprocal(1.0 / n0, N as real);
    1.0 / (1.0 / n0 + 1.0 / N as real)
  }

  lemma Reciprocal(a: real, c: real)
    requires 0.0 < a && 0.0 < c
    ensures 0.0 < 1.0 / (a + 1.0 / c) < c
  {
    var b := 1.0 / c;
    assert 0.0 < b;
    assert b * c == 1.0;
    assert (a + b) * c > 1.0;
  }

  lemma Square(v: real)
    ensures 0.0 <= v * v
    ensures v != 0.0 ==> 0.0 < v * v
  {
    if v < 0.0 { MulMonotone(v, 0.0, -v); } else { MulMonotone(0.0, v, v); }
  }

  /** `int(1 / (1 / n0 + 1 / N))` with `n0 = Z² · Sy2 / d²` in floating
      point, for half-width `d` and mean squared deviation `sy2` (`None`
      when NaN).  A zero `d²` makes `n0` infinite and the size `N`; a zero
      numerator makes `n0` zero and the size 0; a NaN `n0` makes `int()`
      raise; an empty population divides the integer 1 by 0. */
  function SizeFor(d: Option<real>, z: real, sy2: Option<real>, N: nat): (r: Result<int>)
    requires sy2.Some? ==> 0.0 <= sy2.value
    ensures N == 0 ==> r == Failure(ZeroDivision)
    ensures N > 0 && (d.None? || sy2.None?) ==> r == Failure(NotANumber)
    ensures N > 0 && d.Some? && sy2.Some? && d.value == 0.0 && z * z * sy2.value == 0.0 ==>
      r == Failure(NotANumber)
    ensures r.Success? ==> 0 <= r.value <= N
    ensures N > 0 && d.Some? && sy2.Some? && d.value != 0.0 && z * z * sy2.value != 0.0 ==>
      r.Success? && r.value < N
  {
    if N == 0 then Failure(ZeroDivision)
    else if d.None? || sy2.None? then Failure(NotANumber)
    else
      var dv, sv := d.value, sy2.value;
      SizeTerms(dv, z, sv);
      if dv == 0.0 && z * z * sv == 0.0 then Failure(NotANumber)
      else if dv == 0.0 then Success(N)
      else if z * z * sv == 0.0 then Success(0)
      else
        CorrectedSize(z * z * sv, dv, N);
        Success(Truncate(Corrected(z * z * sv, dv, N)))
  }

  /** The numerator `Z² · Sy2` and the denominator `d²` are never negative,
      and `d²` is positive once `d` is not zero. */
  lemma SizeTerms(d: real, z: real, sy2: real)
    requires 0.0 <= sy2
    ensures 0.0 <= z * z * sy2 && 0.0 <= d * d
    ensures d != 0.0 ==> 0.0 < d * d
  {
    Square(d);
    Square(z);
    MulMonotone(0.0, z * z, sy2);
  }

  lemma CorrectedSize(num: real, d: real, N: nat)
    requires 0.0 < num && d != 0.0 && 0 < N
    ensures 0 <= Truncate(Corrected(num, d, N)) < N
  {
    var v := Corrected(num, d, N);
    assert Truncate(v) as real <= v < Truncate(v) as real + 1.0;
  }

  /** One row of `obimUzorka`: the level (labelled `Label(level)`), the size
      and the half-width. */
  datatype SizeRow = SizeRow(level: real, n: int, d: real)

  /** The mean of the squared deviations, `np.square(devs).mean()`. */
  function MeanSquare(devs: seq<Option<real>>): (r: Option<real>)
    ensures r.Some? ==> 0.0 <= r.value
  {
    var p := Present(devs);
    if |p| == 0 then None
    else
      var sq := seq(|p|, i requires 0 <= i < |p| => p[i] * p[i]);
      assert forall i :: 0 <= i < |sq| ==> 0.0 <= sq[i] by {
        forall i | 0 <= i < |sq| ensures 0.0 <= sq[i] {
          Square(p[i]);
        }
      }
      SumNonNegative(sq);
      Some(Mean(sq))
  }

  /** The row for level `a`: `d([a])`, then `Z = norm.ppf(1 - a / 2)` from
      the oracle `zppf`, then the size. */
  function SizeRowFor(x: seq<real>, devs: seq<Option<real>>, a: real, N: nat, zppf: real -> real): (r: Result<SizeRow>)
    ensures (a < 0.0 || 2.0 < a) ==> r == Failure(QuantileOutOfRange)
    ensures r.Success? ==> LevelBounds(x, a).Success?
    ensures r.Success? ==> r.value.d == HalfWidths([LevelBounds(x, a).value])[0]
    ensures r.Success? ==>
      SizeFor(Some(r.value.d), zppf(UpperTail(a)), MeanSquare(devs), N) == Success(r.value.n)
  {
    var b := LevelBounds(x, a);
    if b.Failure? && b.fault != NonFinite then Failure(b.fault)
    else
      var d := if b.Success? then Some(HalfWidths([b.value])[0]) else None;
      match SizeFor(d, zppf(UpperTail(a)), MeanSquare(devs), N)
      case Failure(e) => Failure(e)
      case Success(n) => Success(SizeRow(a, n, d.value))
  }

  /** The row of every level, in order. */
  function SizeResults(x: seq<real>, devs: seq<Option<real>>, levels: seq<real>, N: nat, zppf: real -> real)
    : (r: seq<Result<SizeRow>>)
    ensures |r| == |levels| && forall i :: 0 <= i < |levels| ==> r[i] == SizeRowFor(x, devs, levels[i], N, zppf)
  {
    seq(|levels|, i requires 0 <= i < |levels| => SizeRowFor(x, devs, levels[i], N, zppf))
  }

  /** `obimUzorka` over `levels`: the rows in order; the first level that
      raises decides the outcome. */
  function SizeRows(x: seq<real>, devs: seq<Option<real>>, levels: seq<real>, N: nat, zppf: real -> real)
    : Result<seq<SizeRow>>
  {
    Collect(SizeResults(x, devs, levels, N, zppf))
  }

  // ----------------------------------------------------------- the class

  /** `Bootstrapping(df, alfa, n)`.  `means` and `devs` are unset until
      `fit` runs; a `fit` that raises leaves them as plain (empty) lists,
      which `series` tells apart from the pandas Series a finished `fit`
      leaves. */
  class Bootstrap {
    var df: Frame
    var alfa: seq<real>
    var n: int
    var N: nat
    var means: Option<seq<Option<real>>>
    var devs: Option<seq<Option<real>>>
    var series: bool

    ghost predicate Valid()
      reads this
    {
      N == df.rows && WellFormed(df) &&
      means.Some? == devs.Some? &&
      (means.Some? ==> |means.value| == |devs.value|) &&
      (means.Some? && !series ==> means.value == [] && devs.value == [])
    }

    constructor (data: Frame, levels: seq<real>, size: int)
      requires WellFormed(data)
      ensures Valid()
      ensures df == data && alfa == levels && n == size && N == data.rows
      ensures means.None? && devs.None?
    {
      df, alfa, n, N := data, levels, size, data.rows;
      means, devs, series := None, None, false;
    }

    /** `Bootstrapping(df, alfa, n)`: the levels as `ONK` normalises them,
        and a tenth of the rows when no size is given. */
    static method Create(data: Frame, arg: LevelArg, size: Option<int>) returns (r: Result<Bootstrap>)
      requires WellFormed(data)
      ensures r.Failure? <==> Normalise(arg).Failure?
      ensures r.Failure? ==> r.fault == LevelOutOfRange
      ensures r.Success? ==> fresh(r.value) && r.value.Valid() && r.value.alfa == Normalise(arg).value
      ensures r.Success? ==> r.value.n == (if size.Some? then size.value else DefaultSize(data.rows))
      ensures r.Success? ==> r.value.df == data && r.value.N == data.rows && r.value.means.None?
    {
      var levels := Normalise(arg);
      if levels.Failure? {
        return Failure(levels.fault);
      }
      var b := new Bootstrap(data, levels.value, if size.Some? then size.value else DefaultSize(data.rows));
      return Success(b);
    }

    /** `fit(k, seed)`: the lists start empty; each of the `k` rounds draws
        `n` wages with seed `seed + i` and records the mean and standard
        deviation.  The column lookup and the size checks give the same
        answer in every round, so the first round raises or none does. */
    method Fit(k: int, seed: int, draw: (seq<real>, nat, int) -> seq<real>, sqrt: real -> real)
      returns (fault: Option<Fault>)
      requires Valid()
      modifies this`means, this`devs, this`series
      ensures Valid()
      ensures k > 0 && Target !in Names(df) ==> fault == Some(MissingColumn(Target))
      ensures k > 0 && Target in Names(df) && n < 0 ==> fault == Some(NegativeSize)
      ensures k > 0 && Target in Names(df) && n > N ==> fault == Some(SampleTooLarge)
      ensures fault.Some? ==> means == Some([]) && devs == Some([]) && !series
      ensures fault.None? ==> series
      ensures fault.None? && k <= 0 ==> means == Some([]) && devs == Some([])
      ensures fault.None? && k > 0 ==> Lookup(df, Target).Success? && 0 <= n <= N
      ensures fault.None? && k > 0 ==>
        means == Some(SampleMeans(Lookup(df, Target).value, n, seed, k, draw))
      ensures fault.None? && k > 0 ==>
        devs == Some(SampleDevs(Lookup(df, Target).value, n, seed, k, draw, sqrt))
    {
      means, devs, series := Some([]), Some([]), false;
      if k <= 0 {
        series := true;
        return None;
      }
      var col := Lookup(df, Target);
      if col.Failure? {
        return Some(col.fault);
      }
      assert |col.value| == N by {
        var j :| 0 <= j < |df.columns| && df.columns[j] == Column(Target, col.value);
      }
      if n < 0 {
        return Some(NegativeSize);
      }
      if n > N {
        return Some(SampleTooLarge);
      }
      var ms, ds := Resample(col.value, n, seed, k, draw, sqrt);
      means, devs, series := Some(ms), Some(ds), true;
      fault := None;
    }

    /** `sredina`: the average of the recorded means. */
    function AverageMean(): (r: Result<real>)
      requires Valid()
      reads this
      ensures means.None? ==> r == Failure(Unset("sredineUzoraka"))
      ensures means.Some? && !series ==> r == Failure(NotSeries)
      ensures means.Some? && series ==> r == SeriesMean(means.value)
    {
      if means.None? then Failure(Unset("sredineUzoraka"))
      else if !series then Failure(NotSeries)
      else SeriesMean(means.value)
    }

    /** `std`: the average of the recorded standard deviations. */
    function AverageDev(): (r: Result<real>)
      requires Valid()
      reads this
      ensures devs.None? ==> r == Failure(Unset("standardneDevijacije"))
      ensures devs.Some? && !series ==> r == Failure(NotSeries)
      ensures devs.Some? && series ==> r == SeriesMean(devs.value)
    {
      if devs.None? then Failure(Unset("standardneDevijacije"))
      else if !series then Failure(NotSeries)
      else SeriesMean(devs.value)
    }

    /** The series `interval` works on: the given one, or the recorded means. */
    function Subject(given: Option<seq<Option<real>>>): (r: Result<seq<Option<real>>>)
      reads this
      ensures given.Some? ==> r == Success(given.value)
      ensures given.None? && means.None? ==> r == Failure(Unset("sredineUzoraka"))
      ensures given.None? && means.Some? ==> r == Success(means.value)
    {
      if given.Some? then Success(given.value)
      else if means.None? then Failure(Unset("sredineUzoraka"))
      else Success(means.value)
    }

    /** `interval(alfa, x)`: one row per level (the object's own when none
        are given).  A plain list has no `quantile`, which matters only once
        there is a level to compute. */
    method Interval(levels: Option<seq<real>>, given: Option<seq<Option<real>>>) returns (r: Result<seq<Bounds>>)
      requires Valid()
      ensures Subject(given).Failure? ==> r == Failure(Subject(given).fault)
      ensures Subject(given).Success? && given.None? && !series ==>
        ((if levels.Some? then levels.value else alfa) != [] ==> r == Failure(NotSeries))
      ensures Subject(given).Success? && (given.Some? || series) ==>
        r == IntervalRows(Present(Subject(given).value), if levels.Some? then levels.value else alfa)
    {
      var x := Subject(given);
      if x.Failure? {
        return Failure(x.fault);
      }
      var ls := if levels.Some? then levels.value else alfa;
      if given.None? && !series {
        if ls == [] {
          return Success([]);
        }
        return Failure(NotSeries);
      }
      r := CollectInOrder(LevelResults(Present(x.value), ls));
    }

    /** `d(alfa)`: the half-widths of the intervals around the recorded means. */
    function HalfWidth(levels: Option<seq<real>>): (r: Result<seq<real>>)
      requires Valid()
      reads this
      ensures means.None? ==> r == Failure(Unset("sredineUzoraka"))
      ensures means.Some? && series ==>
        var rows := IntervalRows(Present(means.value), if levels.Some? then levels.value else alfa);
        r == if rows.Success? then Success(HalfWidths(rows.value)) else Failure(rows.fault)
    {
      var ls := if levels.Some? then levels.value else alfa;
      if means.None? then Failure(Unset("sredineUzoraka"))
      else if !series then (if ls == [] then Success([]) else Failure(NotSeries))
      else
        var rows := IntervalRows(Present(means.value), ls);
        if rows.Success? then Success(HalfWidths(rows.value)) else Failure(rows.fault)
    }

    /** `obimUzorka(alfa)`: for each level, the size whose interval would
        have the observed half-width, with `Z` from the oracle `zppf`. */
    method SampleSize(levels: Option<seq<real>>, zppf: real -> real) returns (r: Result<seq<SizeRow>>)
      requires Valid()
      ensures means.None? && (if levels.Some? then levels.value else alfa) != [] ==>
        r == Failure(Unset("sredineUzoraka"))
      ensures means.Some? && series ==>
        r == SizeRows(Present(means.value), devs.value, if levels.Some? then levels.value else alfa, N, zppf)
    {
      var ls := if levels.Some? then levels.value else alfa;
      if ls == [] {
        return Success([]);
      }
      if means.None? {
        return Failure(Unset("sredineUzoraka"));
      }
      if !series {
        return Failure(NotSeries);
      }
      r := CollectInOrder(SizeResults(Present(means.value), devs.value, ls, N, zppf));
    }
  }
}
