/** Exact-real versions of the numeric building blocks the Python code takes
    from pandas and numpy: sums, means, dot products, the sample variance,
    sorting, de-duplicated sorting and the linearly interpolated quantile.
 */
module Stats {
  import opened Outcomes

  // ---------------------------------------------------------------- sums

  function Sum(s: seq<real>): real
  {
    if |s| == 0 then 0.0 else s[0] + Sum(s[1..])
  }

  lemma {:induction false} SumAppend(a: seq<real>, b: seq<real>)
    ensures Sum(a + b) == Sum(a) + Sum(b)
  {
    if |a| == 0 {
      assert a + b == b;
    } else {
      assert (a + b)[1..] == a[1..] + b;
      SumAppend(a[1..], b);
    }
  }

  lemma {:induction false} SumBounds(s: seq<real>, lo: real, hi: real)
    requires forall i :: 0 <= i < |s| ==> lo <= s[i] <= hi
    ensures |s| as real * lo <= Sum(s) <= |s| as real * hi
  {
    if |s| > 0 {
      SumBounds(s[1..], lo, hi);
    }
  }

  lemma {:induction false} SumNonNegative(s: seq<real>)
    requires forall i :: 0 <= i < |s| ==> 0.0 <= s[i]
    ensures 0.0 <= Sum(s)
  {
    if |s| > 0 {
      SumNonNegative(s[1..]);
    }
  }

  /** Element-wise multiple `c * s`, numpy broadcasting of a scalar. */
  function Scale(c: real, s: seq<real>): (r: seq<real>)
    ensures |r| == |s| && forall i :: 0 <= i < |s| ==> r[i] == c * s[i]
  {
    seq(|s|, i requires 0 <= i < |s| => c * s[i])
  }

  lemma {:induction false} SumScale(c: real, s: seq<real>)
    ensures Sum(Scale(c, s)) == c * Sum(s)
  {
    if |s| > 0 {
      assert forall i :: 0 <= i < |s| - 1 ==> Scale(c, s)[1..][i] == Scale(c, s[1..])[i];
      assert Scale(c, s)[1..] == Scale(c, s[1..]);
      SumScale(c, s[1..]);
      Distribute(c, s[0], Sum(s[1..]));
    }
  }

  lemma Distribute(c: real, a: real, b: real)
    ensures c * a + c * b == c * (a + b)
  {
  }

  /** Element-wise sum `a + b` of equally indexed series. */
  function Plus(a: seq<real>, b: seq<real>): (r: seq<real>)
    requires |a| == |b|
    ensures |r| == |a| && forall i :: 0 <= i < |a| ==> r[i] == a[i] + b[i]
  {
    seq(|a|, i requires 0 <= i < |a| => a[i] + b[i])
  }

  lemma {:induction false} SumPlus(a: seq<real>, b: seq<real>)
    requires |a| == |b|
    ensures Sum(Plus(a, b)) == Sum(a) + Sum(b)
  {
    if |a| > 0 {
      assert Plus(a, b)[1..] == Plus(a[1..], b[1..]);
      SumPlus(a[1..], b[1..]);
    }
  }

  /** The series with the same value `c` in `k` places. */
  function Constant(c: real, k: nat): (r: seq<real>)
    ensures |r| == k && forall i :: 0 <= i < k ==> r[i] == c
  {
    seq(k, i => c)
  }

  lemma {:induction false} SumConstant(c: real, k: nat)
    ensures Sum(Constant(c, k)) == k as real * c
  {
    if k > 0 {
      assert Constant(c, k)[1..] == Constant(c, k - 1);
      SumConstant(c, k - 1);
    }
  }

  /** `Series.mean()` of a non-empty series. */
  function Mean(s: seq<real>): real
    requires |s| > 0
  {
    Sum(s) / |s| as real
  }

  /** Weighting terms that were each divided by `k` is dividing the
      weighted sum by `k`. */
  lemma {:induction false} DotDivided(m: seq<real>, a: seq<real>, w: seq<real>, k: real)
    requires k > 0.0 && |m| == |a| == |w|
    requires forall j :: 0 <= j < |a| ==> m[j] == a[j] / k
    ensures Dot(m, w) == Dot(a, w) / k
  {
    if |a| > 0 {
      DotDivided(m[1..], a[1..], w[1..], k);
      var rest := Dot(a[1..], w[1..]);
      assert (a[0] / k) * w[0] == (a[0] * w[0]) / k;
      assert (a[0] * w[0]) / k + rest / k == (a[0] * w[0] + rest) / k;
    }
  }

  /** A mean lies between any lower and upper bound of its terms. */
  lemma MeanBetween(s: seq<real>, lo: real, hi: real)
    requires |s| > 0
    requires forall i :: 0 <= i < |s| ==> lo <= s[i] <= hi
    ensures lo <= Mean(s) <= hi
  {
    SumBounds(s, lo, hi);
    var k := |s| as real;
    assert Sum(s) / k >= (k * lo) / k;
    assert Sum(s) / k <= (k * hi) / k;
  }

  /** `Series @ Series` on equally indexed operands. */
  function Dot(a: seq<real>, b: seq<real>): real
    requires |a| == |b|
  {
    if |a| == 0 then 0.0 else a[0] * b[0] + Dot(a[1..], b[1..])
  }

  lemma {:induction false} DotScaleLeft(c: real, a: seq<real>, w: seq<real>)
    requires |a| == |w|
    ensures Dot(Scale(c, a), w) == c * Dot(a, w)
  {
    if |a| > 0 {
      assert forall i :: 0 <= i < |a| - 1 ==> Scale(c, a)[1..][i] == Scale(c, a[1..])[i];
      assert Scale(c, a)[1..] == Scale(c, a[1..]);
      DotScaleLeft(c, a[1..], w[1..]);
    }
  }

  lemma {:induction false} DotScaleRight(c: real, w: seq<real>, a: seq<real>)
    requires |w| == |a|
    ensures Dot(w, Scale(c, a)) == c * Dot(w, a)
  {
    if |a| > 0 {
      assert forall i :: 0 <= i < |a| - 1 ==> Scale(c, a)[1..][i] == Scale(c, a[1..])[i];
      assert Scale(c, a)[1..] == Scale(c, a[1..]);
      DotScaleRight(c, w[1..], a[1..]);
    }
  }

  /** Element-wise difference `a - b` of equally indexed series. */
  function Minus(a: seq<real>, b: seq<real>): (r: seq<real>)
    requires |a| == |b|
    ensures |r| == |a| && forall i :: 0 <= i < |a| ==> r[i] == a[i] - b[i]
  {
    seq(|a|, i requires 0 <= i < |a| => a[i] - b[i])
  }

  lemma {:induction false} DotMinus(a: seq<real>, b: seq<real>, w: seq<real>)
    requires |a| == |b| == |w|
    ensures Dot(Minus(a, b), w) == Dot(a, w) - Dot(b, w)
  {
    if |a| > 0 {
      assert Minus(a, b)[1..] == Minus(a[1..], b[1..]);
      DotMinus(a[1..], b[1..], w[1..]);
    }
  }

  lemma {:induction false} DotZeroLeft(a: seq<real>, w: seq<real>)
    requires |a| == |w|
    requires forall i :: 0 <= i < |a| ==> a[i] == 0.0
    ensures Dot(a, w) == 0.0
  {
    if |a| > 0 {
      DotZeroLeft(a[1..], w[1..]);
    }
  }

  /** Element-wise product `a * b` of equally indexed series. */
  /** Termwise smaller series have smaller sums. */
  lemma {:induction false} SumMonotone(a: seq<real>, b: seq<real>)
    requires |a| == |b| && forall h :: 0 <= h < |a| ==> a[h] <= b[h]
    ensures Sum(a) <= Sum(b)
  {
    if |a| > 0 {
      SumMonotone(a[1..], b[1..]);
    }
  }

  function Products(a: seq<real>, b: seq<real>): (r: seq<real>)
    requires |a| == |b|
    ensures |r| == |a| && forall i :: 0 <= i < |a| ==> r[i] == a[i] * b[i]
  {
    seq(|a|, i requires 0 <= i < |a| => a[i] * b[i])
  }

  /** Summing the element-wise products is the dot product. */
  lemma {:induction false} SumProducts(a: seq<real>, b: seq<real>)
    requires |a| == |b|
    ensures Sum(Products(a, b)) == Dot(a, b)
  {
    if |a| > 0 {
      var p, q := Products(a, b), Products(a[1..], b[1..]);
      assert |p[1..]| == |q|;
      forall i | 0 <= i < |q|
        ensures p[1..][i] == q[i]
      {
        assert p[1..][i] == p[i + 1] == a[i + 1] * b[i + 1];
        assert a[1..][i] == a[i + 1] && b[1..][i] == b[i + 1];
      }
      assert p[1..] == q;
      SumProducts(a[1..], b[1..]);
    }
  }

  // ------------------------------------------------------ sample variance

  function SquaredDeviations(s: seq<real>, m: real): (r: seq<real>)
    ensures |r| == |s| && forall i :: 0 <= i < |s| ==> r[i] == (s[i] - m) * (s[i] - m)
    ensures forall i :: 0 <= i < |s| ==> 0.0 <= r[i]
  {
    seq(|s|, i requires 0 <= i < |s| => (s[i] - m) * (s[i] - m))
  }

  /** `Series.var()`: the sum of squared deviations from the mean over n - 1. */
  function Variance(s: seq<real>): (r: real)
    requires |s| >= 2
    ensures 0.0 <= r
  {
    var d := SquaredDeviations(s, Mean(s));
    SumNonNegative(d);
    Sum(d) / (|s| - 1) as real
  }

  /** What the model asks of the square root it is handed: `np.sqrt` on the
      non-negative reals, exactly. */
  ghost predicate IsSqrt(sqrt: real -> real)
  {
    forall v :: 0.0 <= v ==> 0.0 <= sqrt(v) && sqrt(v) * sqrt(v) == v
  }

  // ------------------------------------------------------------- sorting

  predicate Sorted(s: seq<real>)
  {
    forall i, j :: 0 <= i <= j < |s| ==> s[i] <= s[j]
  }

  function Insert(s: seq<real>, x: real): (r: seq<real>)
    requires Sorted(s)
    ensures Sorted(r) && multiset(r) == multiset(s) + multiset{x}
  {
    if |s| == 0 then [x]
    else if x <= s[0] then [x] + s
    else
      var rest := Insert(s[1..], x);
      InsertBehind(s, x, rest);
      [s[0]] + rest
  }

  /** The head of a sorted series stays in front of `x` inserted behind it. */
  lemma InsertBehind(s: seq<real>, x: real, rest: seq<real>)
    requires Sorted(s) && |s| > 0 && s[0] < x
    requires Sorted(rest) && multiset(rest) == multiset(s[1..]) + multiset{x}
    ensures Sorted([s[0]] + rest) && multiset([s[0]] + rest) == multiset(s) + multiset{x}
  {
    assert s == [s[0]] + s[1..];
    forall k | 0 <= k < |rest|
      ensures s[0] <= rest[k]
    {
      assert rest[k] in multiset(rest);
      if rest[k] != x {
        assert rest[k] in multiset(s[1..]);
        var j :| 0 <= j < |s[1..]| && s[1..][j] == rest[k];
        assert s[j + 1] == rest[k];
      }
    }
  }

  /** `sorted(s)`: the ascending permutation of `s`. */
  function Sort(s: seq<real>): (r: seq<real>)
    ensures Sorted(r) && multiset(r) == multiset(s)
  {
    if |s| == 0 then []
    else
      assert s == [s[0]] + s[1..];
      Insert(Sort(s[1..]), s[0])
  }

  lemma SortedEnds(s: seq<real>)
    requires |s| > 0
    ensures |Sort(s)| == |s|
    ensures forall i :: 0 <= i < |s| ==> Sort(s)[0] <= s[i] <= Sort(s)[|s| - 1]
    ensures Sort(s)[0] in s && Sort(s)[|s| - 1] in s
  {
    var r := Sort(s);
    assert |r| == |multiset(r)| == |multiset(s)| == |s|;
    assert r[0] in multiset(r) && r[|r| - 1] in multiset(r);
    forall i | 0 <= i < |s|
      ensures r[0] <= s[i] <= r[|s| - 1]
    {
      assert s[i] in multiset(s);
      assert s[i] in multiset(r);
      var k :| 0 <= k < |r| && r[k] == s[i];
    }
  }

  predicate StrictlyAscending(s: seq<real>)
  {
    forall i, j :: 0 <= i < j < |s| ==> s[i] < s[j]
  }

  function InsertUnique(s: seq<real>, x: real): (r: seq<real>)
    requires StrictlyAscending(s)
    ensures StrictlyAscending(r)
    ensures forall y :: y in r <==> y in s || y == x
  {
    if |s| == 0 then [x]
    else if x == s[0] then s
    else if x < s[0] then [x] + s
    else
      var rest := InsertUnique(s[1..], x);
      assert s == [s[0]] + s[1..];
      assert forall k :: 0 <= k < |rest| ==> rest[k] in rest;
      assert forall k :: 0 <= k < |rest| ==> s[0] < rest[k];
      [s[0]] + rest
  }

  /** `sorted(set(s))`: the distinct values of `s` in ascending order. */
  function SortedUnique(s: seq<real>): (r: seq<real>)
    ensures StrictlyAscending(r)
    ensures forall y :: y in r <==> y in s
  {
    if |s| == 0 then []
    else
      assert s == s[..|s| - 1] + [s[|s| - 1]];
      InsertUnique(SortedUnique(s[..|s| - 1]), s[|s| - 1])
  }

  // ----------------------------------------------------------- quantiles

  /** Multiplying by a non-negative factor keeps an inequality. */
  lemma MulMonotone(a: real, b: real, c: real)
    requires a <= b && 0.0 <= c
    ensures a * c <= b * c
  {
    assert (b - a) * c >= 0.0;
  }

  /** The fractional position `k * q` of level `q` in a series of `k + 1`
      sorted terms. */
  function Position(k: nat, q: real): (h: real)
    requires 0.0 <= q <= 1.0
    ensures 0.0 <= h <= k as real
  {
    MulMonotone(0.0, q, k as real);
    MulMonotone(q, 1.0, k as real);
    q * k as real
  }

  lemma PositionMonotone(k: nat, q1: real, q2: real)
    requires 0.0 <= q1 <= q2 <= 1.0
    ensures Position(k, q1) <= Position(k, q2)
  {
    calc {
      Position(k, q1);
    ==
      q1 * k as real;
    <= { MulMonotone(q1, q2, k as real); }
      q2 * k as real;
    ==
      Position(k, q2);
    }
  }

  /** Linear interpolation at fractional position `h` of a sorted series. */
  function Interpolate(v: seq<real>, h: real): real
    requires |v| > 0 && 0.0 <= h <= (|v| - 1) as real
  {
    var i := h.Floor;
    if i + 1 < |v| then v[i] + (h - i as real) * (v[i + 1] - v[i]) else v[i]
  }

  lemma InterpolateBounds(v: seq<real>, h: real)
    requires Sorted(v) && |v| > 0 && 0.0 <= h <= (|v| - 1) as real
    ensures v[h.Floor] <= Interpolate(v, h)
    ensures h.Floor + 1 < |v| ==> Interpolate(v, h) <= v[h.Floor + 1]
    ensures Interpolate(v, h) <= v[|v| - 1]
  {
    var i := h.Floor;
    if i + 1 < |v| {
      var t := h - i as real;
      var d := v[i + 1] - v[i];
      assert 0.0 <= t < 1.0 && 0.0 <= d;
      assert Interpolate(v, h) == v[i] + t * d;
      MulMonotone(0.0, t, d);
      MulMonotone(t, 1.0, d);
      assert t * d <= d;
    }
  }

  /** Within one cell, the interpolated value grows with the position. */
  lemma InterpolateSameCell(v: seq<real>, h1: real, h2: real)
    requires Sorted(v) && |v| > 0
    requires 0.0 <= h1 <= h2 <= (|v| - 1) as real && h1.Floor == h2.Floor
    requires h1.Floor + 1 < |v|
    ensures Interpolate(v, h1) <= Interpolate(v, h2)
  {
    var i := h1.Floor;
    var d := v[i + 1] - v[i];
    MulMonotone(h1 - i as real, h2 - i as real, d);
    assert Interpolate(v, h1) == v[i] + (h1 - i as real) * d;
    assert Interpolate(v, h2) == v[i] + (h2 - i as real) * d;
  }

  /** Interpolated quantiles of a sorted series grow with the position. */
  lemma InterpolateMonotone(v: seq<real>, h1: real, h2: real)
    requires Sorted(v) && |v| > 0
    requires 0.0 <= h1 <= h2 <= (|v| - 1) as real
    ensures Interpolate(v, h1) <= Interpolate(v, h2)
  {
    InterpolateBounds(v, h1);
    InterpolateBounds(v, h2);
    if h1.Floor == h2.Floor && h1.Floor + 1 < |v| {
      InterpolateSameCell(v, h1, h2);
    } else if h1.Floor < h2.Floor {
      assert v[h1.Floor + 1] <= v[h2.Floor];
    }
  }

  /** `Series.quantile(q)` with pandas' default linear interpolation: the
      position (n - 1) * q in the sorted series.  A position outside [0, 1]
      raises; an empty series gives NaN. */
  function Quantile(s: seq<real>, q: real): (r: Result<real>)
    ensures r.Failure? <==> q < 0.0 || 1.0 < q || |s| == 0
    ensures (q < 0.0 || 1.0 < q) ==> r == Failure(QuantileOutOfRange)
  {
    if q < 0.0 || 1.0 < q then Failure(QuantileOutOfRange)
    else if |s| == 0 then Failure(NonFinite)
    else Success(SortedQuantile(Sort(s), q))
  }

  function SortedQuantile(v: seq<real>, q: real): real
    requires |v| > 0 && 0.0 <= q <= 1.0
  {
    Interpolate(v, Position(|v| - 1, q))
  }

  lemma SortedQuantileMonotone(v: seq<real>, q1: real, q2: real)
    requires Sorted(v) && |v| > 0 && 0.0 <= q1 <= q2 <= 1.0
    ensures SortedQuantile(v, q1) <= SortedQuantile(v, q2)
  {
    PositionMonotone(|v| - 1, q1, q2);
    InterpolateMonotone(v, Position(|v| - 1, q1), Position(|v| - 1, q2));
  }

  lemma SortedQuantileBounds(v: seq<real>, q: real)
    requires Sorted(v) && |v| > 0 && 0.0 <= q <= 1.0
    ensures v[0] <= SortedQuantile(v, q) <= v[|v| - 1]
  {
    InterpolateBounds(v, Position(|v| - 1, q));
  }

  /** A larger quantile level never gives a smaller value. */
  lemma QuantileMonotone(s: seq<real>, q1: real, q2: real)
    requires |s| > 0 && 0.0 <= q1 <= q2 <= 1.0
    ensures Quantile(s, q1).Success? && Quantile(s, q2).Success?
    ensures Quantile(s, q1).value <= Quantile(s, q2).value
  {
    var v := Sort(s);
    assert |v| == |s| by { SortedEnds(s); }
    SortedQuantileMonotone(v, q1, q2);
  }

  /** Every quantile lies between the smallest and the largest term. */
  lemma QuantileWithinRange(s: seq<real>, q: real)
    requires |s| > 0 && 0.0 <= q <= 1.0
    ensures Quantile(s, q).Success?
    ensures forall i :: 0 <= i < |s| ==> Sort(s)[0] <= s[i] <= Sort(s)[|s| - 1]
    ensures Sort(s)[0] <= Quantile(s, q).value <= Sort(s)[|s| - 1]
  {
    SortedEnds(s);
    SortedQuantileBounds(Sort(s), q);
  }
}
