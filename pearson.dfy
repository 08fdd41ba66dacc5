/** `Series.corr`: Pearson's correlation of two equally long series, as
    pandas computes it — the co-deviation over the root of the product of
    the two sums of squared deviations, and NaN when that root is zero. */
module Pearson {
  import opened Outcomes
  import opened Stats

  /** The deviations of every term from the mean of the series. */
  function Centered(s: seq<real>): (r: seq<real>)
    requires |s| > 0
    ensures |r| == |s| && forall i :: 0 <= i < |s| ==> r[i] == s[i] - Mean(s)
  {
    seq(|s|, i requires 0 <= i < |s| => s[i] - Mean(s))
  }

  /** `xs.corr(ys)`: `None` stands for the NaN pandas gives for an empty
      pair of series and for a zero divisor (fewer than two rows, or a
      series without spread). */
  function Correlation(xs: seq<real>, ys: seq<real>, sqrt: real -> real): (r: Option<real>)
    requires |xs| == |ys|
    ensures |xs| == 0 ==> r.None?
    ensures |xs| > 0 ==> (r.None? <==> Divisor(xs, ys, sqrt) == 0.0)
    ensures IsSqrt(sqrt) && |xs| > 0 ==>
      (r.None? <==> Dot(Centered(xs), Centered(xs)) == 0.0 || Dot(Centered(ys), Centered(ys)) == 0.0)
  {
    if |xs| == 0 then None
    else
      DivisorZero(xs, ys, sqrt);
      var d := Divisor(xs, ys, sqrt);
      if d == 0.0 then None else Some(Dot(Centered(xs), Centered(ys)) / d)
  }

  /** `sqrt(Σ(x - x̄)² · Σ(y - ȳ)²)`. */
  function Divisor(xs: seq<real>, ys: seq<real>, sqrt: real -> real): (d: real)
    requires |xs| == |ys| > 0
    ensures IsSqrt(sqrt) ==> 0.0 <= d && d * d == Dot(Centered(xs), Centered(xs)) * Dot(Centered(ys), Centered(ys))
  {
    var dx, dy := Centered(xs), Centered(ys);
    DotSelfNonNegative(dx);
    DotSelfNonNegative(dy);
    MulNonNegative(Dot(dx, dx), Dot(dy, dy));
    sqrt(Dot(dx, dx) * Dot(dy, dy))
  }

  /** With a true square root the divisor vanishes exactly when one of the
      two series has no spread. */
  lemma DivisorZero(xs: seq<real>, ys: seq<real>, sqrt: real -> real)
    requires |xs| == |ys| > 0
    ensures IsSqrt(sqrt) ==>
      (Divisor(xs, ys, sqrt) == 0.0 <==> Dot(Centered(xs), Centered(xs)) == 0.0 || Dot(Centered(ys), Centered(ys)) == 0.0)
  {
    if IsSqrt(sqrt) {
      var a, b := Dot(Centered(xs), Centered(xs)), Dot(Centered(ys), Centered(ys));
      DotSelfNonNegative(Centered(xs));
      DotSelfNonNegative(Centered(ys));
      ProductZero(Divisor(xs, ys, sqrt), a, b);
    }
  }

  /** A non-negative root of the product of two non-negative numbers is
      zero exactly when one of them is. */
  lemma ProductZero(d: real, a: real, b: real)
    requires 0.0 <= d && 0.0 <= a && 0.0 <= b && d * d == a * b
    ensures d == 0.0 <==> a == 0.0 || b == 0.0
  {
    if a == 0.0 || b == 0.0 {
      SquareZero(d, a * b);
    } else {
      PositiveProduct(a, b);
    }
  }

  /** A correlation, when there is one, lies in [-1, 1] (with a true
      square root). */
  lemma CorrelationBounded(xs: seq<real>, ys: seq<real>, sqrt: real -> real)
    requires |xs| == |ys|
    ensures IsSqrt(sqrt) && Correlation(xs, ys, sqrt).Some? ==> -1.0 <= Correlation(xs, ys, sqrt).value <= 1.0
  {
    if |xs| > 0 && IsSqrt(sqrt) {
      var d := Divisor(xs, ys, sqrt);
      CoDeviationWithin(Centered(xs), Centered(ys), d);
    }
  }

  /** Co-deviation over a non-zero root of the product of the two sums of
      squares lies in [-1, 1]. */
  lemma CoDeviationWithin(dx: seq<real>, dy: seq<real>, d: real)
    requires |dx| == |dy| && 0.0 <= d && d * d == Dot(dx, dx) * Dot(dy, dy)
    ensures d != 0.0 ==> -1.0 <= Dot(dx, dy) / d <= 1.0
  {
    if d != 0.0 {
      var c := Dot(dx, dy);
      SquareWithin(dx, dy, c, d * d);
      QuotientWithinOne(c, d, d * d);
    }
  }

  /** Cauchy–Schwarz with the two sides named. */
  lemma SquareWithin(dx: seq<real>, dy: seq<real>, c: real, p: real)
    requires |dx| == |dy| && c == Dot(dx, dy) && p == Dot(dx, dx) * Dot(dy, dy)
    ensures c * c <= p
  {
    CauchySchwarz(dx, dy);
  }

  /** A series without spread has no correlation: its sum of squared
      deviations, and so the divisor, is zero. */
  lemma FlatUncorrelated(xs: seq<real>, ys: seq<real>, c: real, sqrt: real -> real)
    requires |xs| == |ys| && IsSqrt(sqrt)
    requires forall i :: 0 <= i < |xs| ==> xs[i] == c
    ensures Correlation(xs, ys, sqrt).None?
  {
    if |xs| > 0 {
      SumConstantSeq(xs, c);
      var dx := Centered(xs);
      assert forall i :: 0 <= i < |dx| ==> dx[i] == 0.0;
      DotZeroLeft(dx, dx);
      var dy := Centered(ys);
      assert Dot(dx, dx) * Dot(dy, dy) == 0.0;
      RootOfZero(sqrt);
    }
  }

  /** A series of equal terms has that term as its mean. */
  lemma SumConstantSeq(s: seq<real>, c: real)
    requires |s| > 0 && forall i :: 0 <= i < |s| ==> s[i] == c
    ensures Mean(s) == c
  {
    assert s == Constant(c, |s|);
    SumConstant(c, |s|);
  }

  lemma RootOfZero(sqrt: real -> real)
    requires IsSqrt(sqrt)
    ensures sqrt(0.0) == 0.0
  {
    SquareZero(sqrt(0.0), 0.0);
  }

  /** Only zero squares to zero. */
  lemma SquareZero(r: real, p: real)
    requires 0.0 <= r && r * r == p
    ensures p == 0.0 ==> r == 0.0
  {
    if r > 0.0 {
      assert p / r == r;
    }
  }

  lemma PositiveProduct(u: real, v: real)
    requires 0.0 < u && 0.0 < v
    ensures 0.0 < u * v
  {
  }

  lemma MulNonNegative(a: real, b: real)
    requires 0.0 <= a && 0.0 <= b
    ensures 0.0 <= a * b
  {
    MulMonotone(0.0, a, b);
  }

  /** A series' dot product with itself is a sum of squares. */
  lemma {:induction false} DotSelfNonNegative(a: seq<real>)
    ensures 0.0 <= Dot(a, a)
  {
    if |a| > 0 {
      DotSelfNonNegative(a[1..]);
      MulSelfNonNegative(a[0]);
    }
  }

  lemma MulSelfNonNegative(v: real)
    ensures 0.0 <= v * v
  {
    if v < 0.0 {
      MulMonotone(v, 0.0, -v);
    } else {
      MulMonotone(0.0, v, v);
    }
  }

  /** Two non-negative numbers whose product is at least `k²` sum to at least `2k`. */
  lemma TwiceBelowSum(p: real, q: real, k: real)
    requires 0.0 <= p && 0.0 <= q && k * k <= p * q
    ensures 2.0 * k <= p + q
  {
    var s, m := p + q, 2.0 * k;
    if m > s {
      MulSelfNonNegative(p - q);
      DifferenceSquared(p, q);
      SquareBelow(s, m);
      assert false;
    }
  }

  /** Squares keep the order of non-negative numbers. */
  lemma SquareBelow(s: real, m: real)
    requires 0.0 <= s < m
    ensures s * s < m * m
  {
    PositiveProduct(m - s, m + s);
    assert m * m - s * s == (m - s) * (m + s);
  }

  lemma DifferenceSquared(p: real, q: real)
    ensures (p - q) * (p - q) == (p + q) * (p + q) - 4.0 * (p * q)
  {
  }

  /** `(C + w)²` multiplied out. */
  lemma SquareOfSum(C: real, w: real, C': real)
    requires C' == w + C
    ensures C' * C' == C * C + 2.0 * (C * w) + w * w
  {
  }

  /** `(A + x²)(B + y²)` multiplied out. */
  lemma ProductOfSums(A: real, B: real, x: real, y: real, A': real, B': real)
    requires A' == x * x + A && B' == y * y + B
    ensures A' * B' == A * B + A * (y * y) + (x * x) * B + (x * y) * (x * y)
  {
    assert (x * x) * (y * y) == (x * y) * (x * y);
  }

  /** One more pair of terms keeps the inequality. */
  lemma SquareStep(x: real, y: real, A: real, B: real, C: real, A': real, B': real, C': real)
    requires 0.0 <= A && 0.0 <= B && C * C <= A * B
    requires A' == x * x + A && B' == y * y + B && C' == x * y + C
    ensures C' * C' <= A' * B'
  {
    var w := x * y;
    var p, q, k := A * (y * y), (x * x) * B, C * w;
    MulSelfNonNegative(x);
    MulSelfNonNegative(y);
    MulNonNegative(A, y * y);
    MulNonNegative(x * x, B);
    MulSelfNonNegative(w);
    MulMonotone(C * C, A * B, w * w);
    Rearranged(C, w, A, B, x, y);
    TwiceBelowSum(p, q, k);
    SquareOfSum(C, w, C');
    ProductOfSums(A, B, x, y, A', B');
  }

  /** The products `SquareStep` compares, regrouped around `w = xy`. */
  lemma Rearranged(C: real, w: real, A: real, B: real, x: real, y: real)
    requires w == x * y
    ensures (C * w) * (C * w) == (C * C) * (w * w)
    ensures (A * (y * y)) * ((x * x) * B) == (A * B) * (w * w)
  {
  }

  /** The Cauchy–Schwarz inequality for dot products of series, by
      induction on their length. */
  lemma {:induction false} CauchySchwarz(a: seq<real>, b: seq<real>)
    requires |a| == |b|
    ensures Dot(a, b) * Dot(a, b) <= Dot(a, a) * Dot(b, b)
  {
    if |a| > 0 {
      CauchySchwarz(a[1..], b[1..]);
      DotSelfNonNegative(a[1..]);
      DotSelfNonNegative(b[1..]);
      SquareStep(a[0], b[0], Dot(a[1..], a[1..]), Dot(b[1..], b[1..]), Dot(a[1..], b[1..]),
                 Dot(a, a), Dot(b, b), Dot(a, b));
    }
  }

  /** A multiple `c = q·d` of a positive `d` by more than one has a larger
      square than `d`. */
  lemma BeyondOne(q: real, d: real, c: real)
    requires q > 1.0 && d > 0.0 && c == q * d
    ensures c * c > d * d
  {
    PositiveProduct(q - 1.0, d);
    assert c - d == (q - 1.0) * d;
    PositiveProduct(c - d, c + d);
    assert c * c - d * d == (c - d) * (c + d);
  }

  /** `c / d` lies in [-1, 1] when `d` is the positive root of a `p` at
      least `c²`. */
  lemma QuotientWithinOne(c: real, d: real, p: real)
    requires d >= 0.0 && d != 0.0 && d * d == p && c * c <= p
    ensures -1.0 <= c / d <= 1.0
  {
    var q := c / d;
    assert q * d == c;
    if q > 1.0 {
      BeyondOne(q, d, c);
      assert false;
    }
    if q < -1.0 {
      BeyondOne(-q, d, -c);
      assert false;
    }
  }
}
