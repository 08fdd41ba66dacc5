/** How `SSU.__init__` of `klase/Sampling.py` forms its strata and draws from
    them: the label of every row, the strata in order of first appearance,
    the rows of each stratum, the rounded proportional allocation of the
    sample and the stratified draw. */
module Allocation {
  import opened Outcomes
  import opened Stats
  import opened Frames
  import opened LeastSquares
  import opened Survey

  // ------------------------------------------------------------ labels

  /** The label of row `i`: the shown values of the stratum columns joined
      by '_' (`df[stratumi].astype(str).agg('_'.join, axis=1)`). */
  function LabelAt(cols: seq<seq<real>>, i: nat, show: real -> string): string
    requires forall j :: 0 <= j < |cols| ==> i < |cols[j]|
  {
    Join(Shown(cols, i, show), "_")
  }

  function Shown(cols: seq<seq<real>>, i: nat, show: real -> string): (r: seq<string>)
    requires forall j :: 0 <= j < |cols| ==> i < |cols[j]|
    ensures |r| == |cols| && forall j :: 0 <= j < |cols| ==> r[j] == show(cols[j][i])
  {
    seq(|cols|, j requires 0 <= j < |cols| => show(cols[j][i]))
  }

  /** `df[name]` for each stratum column, in order. */
  function Lookups(data: Frame, names: seq<string>): (r: seq<Result<seq<real>>>)
    requires WellFormed(data)
    ensures |r| == |names| && forall j :: 0 <= j < |names| ==> r[j] == Lookup(data, names[j])
    ensures forall j :: 0 <= j < |names| && r[j].Success? ==> |r[j].value| == data.rows
  {
    LookupsLength(data, names);
    seq(|names|, j requires 0 <= j < |names| => Lookup(data, names[j]))
  }

  lemma LookupsLength(data: Frame, names: seq<string>)
    requires WellFormed(data)
    ensures forall j :: 0 <= j < |names| && Lookup(data, names[j]).Success? ==>
      |Lookup(data, names[j]).value| == data.rows
  {
    forall j | 0 <= j < |names| && Lookup(data, names[j]).Success? {
      LookupLength(data, names[j]);
    }
  }

  /** The label column over the whole population; a missing stratum column
      raises. */
  function Labels(data: Frame, names: seq<string>, show: real -> string): (r: Result<seq<string>>)
    requires WellFormed(data)
    ensures var c := Collect(Lookups(data, names));
      && (c.Failure? ==> r == Failure(c.fault))
      && (c.Success? ==>
            && r.Success? && |r.value| == data.rows
            && forall i :: 0 <= i < data.rows ==> r.value[i] == LabelAt(c.value, i, show))
  {
    var c := Collect(Lookups(data, names));
    if c.Failure? then Failure(c.fault)
    else Success(seq(data.rows, i requires 0 <= i < data.rows => LabelAt(c.value, i, show)))
  }

  /** The labelling fails exactly when a stratum column is missing, and then
      names the first one missing. */
  lemma LabelsFault(data: Frame, names: seq<string>, show: real -> string)
    requires WellFormed(data)
    ensures Labels(data, names, show).Failure? <==> exists j :: 0 <= j < |names| && names[j] !in Names(data)
    ensures Labels(data, names, show).Failure? ==>
      exists j :: 0 <= j < |names| && Labels(data, names, show).fault == MissingColumn(names[j]) &&
        names[j] !in Names(data) && forall k :: 0 <= k < j ==> names[k] in Names(data)
  {
    var looked := Lookups(data, names);
    if Collect(looked).Failure? {
      var j :| 0 <= j < |looked| && looked[j] == Failure(Collect(looked).fault) &&
        forall k :: 0 <= k < j ==> looked[k].Success?;
      assert names[j] !in Names(data);
    }
  }

  /** `s.split('_')`. */
  function Split(s: string): (r: seq<string>)
    ensures |r| > 0
    decreases |s|
  {
    if '_' !in s then [s]
    else
      var i := Index(s, '_');
      [s[..i]] + Split(s[i + 1..])
  }

  /** The position of the first `c` in `s`. */
  function Index(s: string, c: char): (i: nat)
    requires c in s
    ensures i < |s| && s[i] == c && forall k :: 0 <= k < i ==> s[k] != c
  {
    if s[0] == c then 0 else 1 + Index(s[1..], c)
  }

  /** Splitting a label at '_' gives back the shown values it was joined
      from, when none of them holds a '_' itself. */
  lemma {:induction false} SplitJoin(parts: seq<string>)
    requires |parts| > 0
    requires forall j :: 0 <= j < |parts| ==> '_' !in parts[j]
    ensures Split(Join(parts, "_")) == parts
  {
    if |parts| > 1 {
      var p := parts[0];
      var rest := Join(parts[1..], "_");
      var s := Join(parts, "_");
      assert s == p + "_" + rest;
      assert s[|p|] == '_';
      assert forall k :: 0 <= k < |p| ==> s[k] == p[k];
      assert Index(s, '_') == |p|;
      assert s[..|p|] == p;
      assert s[|p| + 1..] == rest;
      SplitJoin(parts[1..]);
      assert [p] + parts[1..] == parts;
    }
  }

  /** Two rows share a label exactly when they show the same values in
      every stratum column, provided no shown value holds a '_'. */
  lemma SameLabel(a: seq<string>, b: seq<string>)
    requires |a| > 0 && |b| > 0
    requires forall j :: 0 <= j < |a| ==> '_' !in a[j]
    requires forall j :: 0 <= j < |b| ==> '_' !in b[j]
    ensures Join(a, "_") == Join(b, "_") <==> a == b
  {
    if Join(a, "_") == Join(b, "_") {
      SplitJoin(a);
      SplitJoin(b);
    }
  }

  // ----------------------------------------------------------- strata

  /** The rows among `rows` whose label is `s`, in their order: one group
      of `groupby('Strata')`. */
  function Within(rows: seq<nat>, labels: seq<string>, s: string): (r: seq<nat>)
    requires forall k :: 0 <= k < |rows| ==> rows[k] < |labels|
    ensures |r| <= |rows|
    ensures forall k :: 0 <= k < |r| ==> r[k] < |labels| && labels[r[k]] == s
    decreases |rows|
  {
    if |rows| == 0 then []
    else
      var last := rows[|rows| - 1];
      var init := Within(rows[..|rows| - 1], labels, s);
      if labels[last] == s then init + [last] else init
  }

  /** The positions `0, 1, …, N - 1`. */
  function Positions(N: nat): (r: seq<nat>)
    ensures |r| == N && forall k :: 0 <= k < N ==> r[k] == k
  {
    seq(N, k requires 0 <= k < N => k as nat)
  }

  /** The rows of the population with label `s`, in order. */
  function Members(labels: seq<string>, s: string): (r: seq<nat>)
    ensures forall k :: 0 <= k < |r| ==> r[k] < |labels| && labels[r[k]] == s
  {
    Within(Positions(|labels|), labels, s)
  }

  /** The rows of a stratum come in increasing order, so none twice. */
  lemma {:induction false} WithinAscending(rows: seq<nat>, labels: seq<string>, s: string)
    requires forall k :: 0 <= k < |rows| ==> rows[k] < |labels|
    requires Ascending(rows)
    ensures Ascending(Within(rows, labels, s))
    decreases |rows|
  {
    if |rows| > 0 {
      var init := rows[..|rows| - 1];
      WithinAscending(init, labels, s);
      WithinSubset(init, labels, s);
      var w := Within(init, labels, s);
      forall k | 0 <= k < |w|
        ensures w[k] < rows[|rows| - 1]
      {
        var j :| 0 <= j < |init| && init[j] == w[k];
        assert init[j] == rows[j];
      }
      var r := Within(rows, labels, s);
      if labels[rows[|rows| - 1]] == s {
        assert r == w + [rows[|rows| - 1]];
        forall k, l | 0 <= k < l < |r|
          ensures r[k] < r[l]
        {
          if l == |w| {
            assert r[k] == w[k];
          } else {
            assert r[k] == w[k] && r[l] == w[l];
          }
        }
      } else {
        assert r == w;
        assert forall k, l :: 0 <= k < l < |w| ==> w[k] < w[l];
      }
    }
  }

  /** A group holds only rows it was formed from... */
  lemma {:induction false} WithinSubset(rows: seq<nat>, labels: seq<string>, s: string)
    requires forall k :: 0 <= k < |rows| ==> rows[k] < |labels|
    ensures forall k :: 0 <= k < |Within(rows, labels, s)| ==> Within(rows, labels, s)[k] in rows
    decreases |rows|
  {
    if |rows| > 0 {
      var init := rows[..|rows| - 1];
      WithinSubset(init, labels, s);
      assert forall k :: 0 <= k < |init| ==> init[k] == rows[k];
    }
  }

  /** ... and every one of them with the group's label. */
  lemma {:induction false} WithinComplete(rows: seq<nat>, labels: seq<string>, s: string)
    requires forall k :: 0 <= k < |rows| ==> rows[k] < |labels|
    ensures forall k :: 0 <= k < |rows| && labels[rows[k]] == s ==> rows[k] in Within(rows, labels, s)
    decreases |rows|
  {
    if |rows| > 0 {
      var init := rows[..|rows| - 1];
      WithinComplete(init, labels, s);
      assert forall k :: 0 <= k < |init| ==> init[k] == rows[k];
    }
  }

  /** A stratum's members are exactly the rows with its label. */
  lemma MembersExactly(labels: seq<string>, s: string, i: nat)
    requires i < |labels|
    ensures i in Members(labels, s) <==> labels[i] == s
  {
    var all := Positions(|labels|);
    WithinComplete(all, labels, s);
    assert all[i] == i;
    if labels[i] == s {
      assert all[i] in Within(all, labels, s);
    }
    if i in Members(labels, s) {
      var k :| 0 <= k < |Members(labels, s)| && Members(labels, s)[k] == i;
    }
  }

  lemma MembersAscending(labels: seq<string>, s: string)
    ensures Ascending(Members(labels, s))
  {
    WithinAscending(Positions(|labels|), labels, s);
  }

  predicate Ascending(r: seq<nat>)
  {
    forall k, l :: 0 <= k < l < |r| ==> r[k] < r[l]
  }

  predicate NoRepeats(r: seq<nat>)
  {
    forall k, l :: 0 <= k < l < |r| ==> r[k] != r[l]
  }

  predicate Unique(d: seq<string>)
  {
    forall h, g :: 0 <= h < g < |d| ==> d[h] != d[g]
  }

  /** The distinct labels in order of first appearance. */
  function Distinct(labels: seq<string>): (r: seq<string>)
    ensures Unique(r)
    ensures forall i :: 0 <= i < |labels| ==> labels[i] in r
    decreases |labels|
  {
    if |labels| == 0 then []
    else
      var init := labels[..|labels| - 1];
      var d := Distinct(init);
      assert forall i :: 0 <= i < |labels| - 1 ==> labels[i] == init[i];
      if labels[|labels| - 1] in d then d else d + [labels[|labels| - 1]]
  }

  /** Every stratum is the label of some row. */
  lemma {:induction false} DistinctFromLabels(labels: seq<string>, h: nat)
    requires h < |Distinct(labels)|
    ensures Distinct(labels)[h] in labels
    decreases |labels|
  {
    var init := labels[..|labels| - 1];
    if h < |Distinct(init)| {
      DistinctFromLabels(init, h);
      assert Distinct(init)[h] == Distinct(labels)[h];
      var i :| 0 <= i < |init| && init[i] == Distinct(init)[h];
      assert labels[i] == init[i];
    }
  }

  // ------------------------------------------------ sums over the strata

  /** The sum of `Y` over each group, stratum by stratum. */
  function GroupSums(rows: seq<nat>, labels: seq<string>, d: seq<string>, Y: seq<real>): (r: seq<real>)
    requires |Y| == |labels| && forall k :: 0 <= k < |rows| ==> rows[k] < |labels|
    ensures |r| == |d|
    ensures forall h :: 0 <= h < |d| ==> r[h] == Sum(Pick(Y, Within(rows, labels, d[h])))
  {
    seq(|d|, h requires 0 <= h < |d| => Sum(Pick(Y, Within(rows, labels, d[h]))))
  }

  /** `v` at the place of stratum `s` and zero elsewhere. */
  function Spike(d: seq<string>, s: string, v: real): (r: seq<real>)
    ensures |r| == |d| && forall h :: 0 <= h < |d| ==> r[h] == if d[h] == s then v else 0.0
  {
    seq(|d|, h requires 0 <= h < |d| => if d[h] == s then v else 0.0)
  }

  lemma {:induction false} SumSpike(d: seq<string>, s: string, v: real)
    requires Unique(d)
    ensures Sum(Spike(d, s, v)) == if s in d then v else 0.0
  {
    if |d| > 0 {
      assert Spike(d, s, v)[1..] == Spike(d[1..], s, v);
      SumSpike(d[1..], s, v);
      if d[0] == s {
        assert s !in d[1..];
      }
    }
  }

  lemma PickAppend(Y: seq<real>, a: seq<nat>, b: seq<nat>)
    requires forall k :: 0 <= k < |a| ==> a[k] < |Y|
    requires forall k :: 0 <= k < |b| ==> b[k] < |Y|
    ensures Pick(Y, a + b) == Pick(Y, a) + Pick(Y, b)
  {
  }

  /** Every row lies in exactly one stratum, so the group sums add up to
      the sum over all the rows. */
  lemma {:induction false} SumPartition(rows: seq<nat>, labels: seq<string>, d: seq<string>, Y: seq<real>)
    requires |Y| == |labels| && forall k :: 0 <= k < |rows| ==> rows[k] < |labels|
    requires Unique(d) && forall k :: 0 <= k < |rows| ==> labels[rows[k]] in d
    ensures Sum(GroupSums(rows, labels, d, Y)) == Sum(Pick(Y, rows))
    decreases |rows|
  {
    if |rows| == 0 {
      assert forall h :: 0 <= h < |d| ==> GroupSums(rows, labels, d, Y)[h] == 0.0;
      SumBounds(GroupSums(rows, labels, d, Y), 0.0, 0.0);
    } else {
      var init := rows[..|rows| - 1];
      var last := rows[|rows| - 1];
      SumPartition(init, labels, d, Y);
      var spike := Spike(d, labels[last], Y[last]);
      GroupSumsSnoc(rows, labels, d, Y);
      SumPlus(GroupSums(init, labels, d, Y), spike);
      SumSpike(d, labels[last], Y[last]);
      SumPickSnoc(Y, rows);
    }
  }

  /** One more row adds its value to its own stratum's sum only. */
  lemma GroupSumsSnoc(rows: seq<nat>, labels: seq<string>, d: seq<string>, Y: seq<real>)
    requires |Y| == |labels| && forall k :: 0 <= k < |rows| ==> rows[k] < |labels|
    requires |rows| > 0
    ensures var last := rows[|rows| - 1];
      GroupSums(rows, labels, d, Y) ==
      Plus(GroupSums(rows[..|rows| - 1], labels, d, Y), Spike(d, labels[last], Y[last]))
  {
    var init := rows[..|rows| - 1];
    var last := rows[|rows| - 1];
    var spike := Spike(d, labels[last], Y[last]);
    forall h | 0 <= h < |d|
      ensures GroupSums(rows, labels, d, Y)[h] == GroupSums(init, labels, d, Y)[h] + spike[h]
    {
      if labels[last] == d[h] {
        assert Within(rows, labels, d[h]) == Within(init, labels, d[h]) + [last];
        SumPickSnoc(Y, Within(rows, labels, d[h]));
      } else {
        assert Within(rows, labels, d[h]) == Within(init, labels, d[h]);
      }
    }
  }

  /** The sum over some rows grows by the value of a row appended. */
  lemma SumPickSnoc(Y: seq<real>, rows: seq<nat>)
    requires |rows| > 0 && forall k :: 0 <= k < |rows| ==> rows[k] < |Y|
    ensures Sum(Pick(Y, rows)) == Sum(Pick(Y, rows[..|rows| - 1])) + Y[rows[|rows| - 1]]
  {
    var init := rows[..|rows| - 1];
    var last := rows[|rows| - 1];
    assert Pick(Y, rows) == Pick(Y, init) + [Y[last]];
    SumAppend(Pick(Y, init), [Y[last]]);
    assert Sum([Y[last]]) == Y[last];
  }

  /** A sum of ones counts. */
  lemma CountByOnes(rows: seq<nat>, N: nat)
    requires forall k :: 0 <= k < |rows| ==> rows[k] < N
    ensures Sum(Pick(Constant(1.0, N), rows)) == |rows| as real
  {
    assert Pick(Constant(1.0, N), rows) == Constant(1.0, |rows|);
    SumConstant(1.0, |rows|);
  }

  // ------------------------------------------------------ stratum sizes

  /** `df['Strata'].value_counts()`: the size of each stratum, as a real. */
  function Sizes(labels: seq<string>, d: seq<string>): (r: seq<real>)
    ensures |r| == |d| && forall h :: 0 <= h < |d| ==> r[h] == |Members(labels, d[h])| as real
  {
    seq(|d|, h requires 0 <= h < |d| => |Members(labels, d[h])| as real)
  }

  /** `value_counts(normalize=True)`: each stratum's share `Nh / N`. */
  function Shares(labels: seq<string>, d: seq<string>): (r: seq<real>)
    requires |labels| > 0
    ensures |r| == |d| && forall h :: 0 <= h < |d| ==> r[h] == |Members(labels, d[h])| as real / |labels| as real
  {
    Divided(Sizes(labels, d), |labels| as real)
  }

  /** Element-wise `s / N`. */
  function Divided(s: seq<real>, N: real): (r: seq<real>)
    requires N != 0.0
    ensures |r| == |s| && forall h :: 0 <= h < |s| ==> r[h] == s[h] / N
  {
    seq(|s|, h requires 0 <= h < |s| => s[h] / N)
  }

  lemma {:induction false} SumDivided(s: seq<real>, N: real)
    requires N != 0.0
    ensures Sum(Divided(s, N)) == Sum(s) / N
  {
    if |s| > 0 {
      var q := Divided(s, N);
      assert q[1..] == Divided(s[1..], N);
      SumDivided(s[1..], N);
      AddDivided(s[0], Sum(s[1..]), N);
    }
  }

  lemma AddDivided(a: real, b: real, N: real)
    requires N != 0.0
    ensures a / N + b / N == (a + b) / N
  {
  }

  /** The stratum sizes add up to the population size. */
  lemma SizesAddUp(labels: seq<string>)
    ensures Sum(Sizes(labels, Distinct(labels))) == |labels| as real
  {
    var d := Distinct(labels);
    var N := |labels|;
    var all, ones := Positions(N), Constant(1.0, N);
    forall k | 0 <= k < |all|
      ensures all[k] < N && labels[all[k]] in d
    {
      assert all[k] == k;
    }
    GroupCounts(labels, d);
    SumPartition(all, labels, d, ones);
    CountByOnes(all, N);
  }

  /** Summing ones over each stratum counts its members. */
  lemma GroupCounts(labels: seq<string>, d: seq<string>)
    ensures GroupSums(Positions(|labels|), labels, d, Constant(1.0, |labels|)) == Sizes(labels, d)
  {
    var N := |labels|;
    forall h | 0 <= h < |d|
      ensures GroupSums(Positions(N), labels, d, Constant(1.0, N))[h] == Sizes(labels, d)[h]
    {
      CountByOnes(Within(Positions(N), labels, d[h]), N);
    }
  }

  /** The shares add up to one. */
  lemma SharesAddUp(labels: seq<string>)
    requires |labels| > 0
    ensures Sum(Shares(labels, Distinct(labels))) == 1.0
  {
    var N := |labels| as real;
    var sizes := Sizes(labels, Distinct(labels));
    SizesAddUp(labels);
    WholeDivided(sizes, N);
  }

  lemma WholeDivided(s: seq<real>, N: real)
    requires N > 0.0 && Sum(s) == N
    ensures Sum(Divided(s, N)) == 1.0
  {
    SumDivided(s, N);
  }

  // --------------------------------------------------------- allocation

  /** numpy's `round`: to the nearest integer, halves to the even one. */
  function RoundHalfEven(v: real): (r: int)
    ensures v - 0.5 <= r as real <= v + 0.5
  {
    var fl := v.Floor;
    var d := v - fl as real;
    if d < 0.5 then fl
    else if d > 0.5 then fl + 1
    else if fl % 2 == 0 then fl else fl + 1
  }

  /** Halfway between two integers, the rounding picks the even one. */
  lemma HalvesToEven(m: int)
    ensures RoundHalfEven(m as real + 0.5) == if m % 2 == 0 then m else m + 1
    ensures RoundHalfEven(m as real + 0.5) % 2 == 0
  {
    var v := m as real + 0.5;
    assert v.Floor == m;
    assert v - m as real == 0.5;
  }

  /** `.round().astype(int)` of a series. */
  function Rounds(v: seq<real>): (r: seq<int>)
    ensures |r| == |v| && forall h :: 0 <= h < |v| ==> r[h] == RoundHalfEven(v[h])
  {
    seq(|v|, h requires 0 <= h < |v| => RoundHalfEven(v[h]))
  }

  /** `(strataCounts * n).round().astype(int)`: each stratum's share of
      the requested size `n`, rounded.
      With `n <= N`, no stratum is asked for more rows than it has, nor for
      a negative number. */
  function Allocation(labels: seq<string>, d: seq<string>, n: nat): (r: seq<int>)
    requires |labels| > 0
    ensures |r| == |d|
    ensures n <= |labels| ==> Fits(labels, d, r)
  {
    RoundedSharesFit(labels, d, n);
    Rounds(Scale(n as real, Shares(labels, d)))
  }

  lemma RoundedSharesFit(labels: seq<string>, d: seq<string>, n: nat)
    requires |labels| > 0
    ensures n <= |labels| ==> Fits(labels, d, Rounds(Scale(n as real, Shares(labels, d))))
  {
    if n <= |labels| {
      forall h | 0 <= h < |d|
        ensures 0 <= Rounds(Scale(n as real, Shares(labels, d)))[h] <= |Members(labels, d[h])|
      {
        RoundedShareFits(labels, d, n, h);
      }
    }
  }

  lemma RoundedShareFits(labels: seq<string>, d: seq<string>, n: nat, h: nat)
    requires |labels| > 0 && n <= |labels| && h < |d|
    ensures 0 <= Rounds(Scale(n as real, Shares(labels, d)))[h] <= |Members(labels, d[h])|
  {
    var c := |Members(labels, d[h])|;
    var x := Scale(n as real, Shares(labels, d))[h];
    assert x == n as real * (c as real / |labels| as real);
    ShareOfSize(c as real, n as real, |labels| as real);
    RoundedInside(x, c);
  }

  /** A value between 0 and a whole `c` rounds to a whole between 0 and `c`. */
  lemma RoundedInside(x: real, c: nat)
    requires 0.0 <= x <= c as real
    ensures 0 <= RoundHalfEven(x) <= c
  {
  }

  /** `n` times the share `c / N` lies between 0 and `c` when `n <= N`. */
  lemma ShareOfSize(c: real, n: real, N: real)
    requires 0.0 <= c && 0.0 <= n <= N && 0.0 < N
    ensures 0.0 <= n * (c / N) <= c
  {
    var v := c / N;
    assert v * N == c;
    MulMonotone(n, N, v);
    MulMonotone(0.0, n, v);
  }

  function Total(s: seq<int>): int
  {
    if |s| == 0 then 0 else s[0] + Total(s[1..])
  }

  function Reals(s: seq<int>): (r: seq<real>)
    ensures |r| == |s| && forall h :: 0 <= h < |s| ==> r[h] == s[h] as real
  {
    seq(|s|, h requires 0 <= h < |s| => s[h] as real)
  }

  lemma {:induction false} TotalReals(s: seq<int>)
    ensures Sum(Reals(s)) == Total(s) as real
  {
    if |s| > 0 {
      assert Reals(s)[1..] == Reals(s[1..]);
      TotalReals(s[1..]);
    }
  }

  /** Sizes that fit their strata add up to at most the population: a
      stratified draw never holds more rows than there are. */
  lemma FitsWithinPopulation(labels: seq<string>, alloc: seq<int>)
    requires Fits(labels, Distinct(labels), alloc)
    ensures Total(alloc) <= |labels|
  {
    var d := Distinct(labels);
    var a, b := Reals(alloc), Sizes(labels, d);
    forall h | 0 <= h < |a|
      ensures a[h] <= b[h]
    {
      assert a[h] == alloc[h] as real && b[h] == |Members(labels, d[h])| as real;
    }
    TotalReals(alloc);
    SizesAddUp(labels);
    SumMonotone(a, b);
  }

  /** Rounding each share moves the total at most half a row per stratum
      away from `n`: the sample drawn need not have the size asked for. */
  lemma AllocationTotal(labels: seq<string>, n: nat)
    requires |labels| > 0
    ensures n as real - |Distinct(labels)| as real * 0.5 <= Total(Allocation(labels, Distinct(labels), n)) as real
    ensures Total(Allocation(labels, Distinct(labels), n)) as real <= n as real + |Distinct(labels)| as real * 0.5
  {
    var d := Distinct(labels);
    var exact := Scale(n as real, Shares(labels, d));
    var a := Reals(Rounds(exact));
    SharesAddUp(labels);
    SumScale(n as real, Shares(labels, d));
    RoundingGap(exact);
    TotalReals(Allocation(labels, d, n));
  }

  /** Rounding every term of a series moves its sum by at most half the
      number of terms. */
  lemma RoundingGap(v: seq<real>)
    ensures Sum(v) - |v| as real * 0.5 <= Sum(Reals(Rounds(v))) <= Sum(v) + |v| as real * 0.5
  {
    var r := Rounds(v);
    assert forall h :: 0 <= h < |v| ==> v[h] - 0.5 <= r[h] as real <= v[h] + 0.5;
    RoundedWithin(v, r);
  }

  lemma RoundedWithin(v: seq<real>, r: seq<int>)
    requires |r| == |v| && forall h :: 0 <= h < |v| ==> v[h] - 0.5 <= r[h] as real <= v[h] + 0.5
    ensures Sum(v) - |v| as real * 0.5 <= Sum(Reals(r)) <= Sum(v) + |v| as real * 0.5
  {
    SumWithin(Reals(r), v, 0.5);
  }

  /** Two series whose terms differ by at most `e` have sums that differ by
      at most `e` per term. */
  lemma {:induction false} SumWithin(a: seq<real>, b: seq<real>, e: real)
    requires |a| == |b|
    requires forall h :: 0 <= h < |a| ==> -e <= a[h] - b[h] <= e
    ensures Sum(b) - |a| as real * e <= Sum(a) <= Sum(b) + |a| as real * e
  {
    if |a| > 0 {
      SumWithin(a[1..], b[1..], e);
      assert -e <= a[0] - b[0] <= e;
      var m := |a[1..]| as real;
      assert |a| as real * e == m * e + e;
      assert Sum(a) == a[0] + Sum(a[1..]) && Sum(b) == b[0] + Sum(b[1..]);
    }
  }

  // ------------------------------------------------------------- the draw

  /** `df[df['Strata'] == s].sample(n=m, random_state=seed)`: the sampler
      picks `m` of the stratum's positions, mapped back to population rows. */
  function Chosen(labels: seq<string>, s: string, m: nat, seed: int, pick: (nat, nat, int) -> seq<nat>): (r: seq<nat>)
    requires Picks(pick) && m <= |Members(labels, s)|
    ensures |r| == m
    ensures forall k :: 0 <= k < m ==> r[k] < |labels| && labels[r[k]] == s
    ensures forall k :: 0 <= k < m ==> r[k] == Members(labels, s)[pick(|Members(labels, s)|, m, seed)[k]]
  {
    var mem := Members(labels, s);
    var p := pick(|mem|, m, seed);
    seq(m, k requires 0 <= k < m => mem[p[k]])
  }

  /** The requested sizes fit their strata. */
  predicate Fits(labels: seq<string>, d: seq<string>, alloc: seq<int>)
  {
    |alloc| == |d| && forall h :: 0 <= h < |d| ==> 0 <= alloc[h] <= |Members(labels, d[h])|
  }

  /** `pd.concat` of the per-stratum draws, stratum after stratum. */
  function Stratified(labels: seq<string>, d: seq<string>, alloc: seq<int>, seed: int,
                      pick: (nat, nat, int) -> seq<nat>): (r: seq<nat>)
    requires Picks(pick) && Fits(labels, d, alloc)
    ensures forall k :: 0 <= k < |r| ==> r[k] < |labels| && labels[r[k]] in d
    decreases |d|
  {
    if |d| == 0 then []
    else
      var k := |d| - 1;
      assert Fits(labels, d[..k], alloc[..k]);
      var init := Stratified(labels, d[..k], alloc[..k], seed, pick);
      var last := Chosen(labels, d[k], alloc[k] as nat, seed, pick);
      init + last
  }

  lemma WithinAppend(a: seq<nat>, b: seq<nat>, labels: seq<string>, s: string)
    requires forall k :: 0 <= k < |a| ==> a[k] < |labels|
    requires forall k :: 0 <= k < |b| ==> b[k] < |labels|
    ensures Within(a + b, labels, s) == Within(a, labels, s) + Within(b, labels, s)
    decreases |b|
  {
    if |b| > 0 {
      var bi := b[..|b| - 1];
      var last := b[|b| - 1];
      assert (a + b)[..|a + b| - 1] == a + bi;
      WithinAppend(a, bi, labels, s);
      if labels[last] == s {
        assert Within(a + b, labels, s) == Within(a + bi, labels, s) + [last];
        assert Within(b, labels, s) == Within(bi, labels, s) + [last];
      } else {
        assert Within(a + b, labels, s) == Within(a + bi, labels, s);
        assert Within(b, labels, s) == Within(bi, labels, s);
      }
    } else {
      assert a + b == a;
    }
  }

  lemma {:induction false} WithinAll(rows: seq<nat>, labels: seq<string>, s: string)
    requires forall k :: 0 <= k < |rows| ==> rows[k] < |labels| && labels[rows[k]] == s
    ensures Within(rows, labels, s) == rows
    decreases |rows|
  {
    if |rows| > 0 {
      WithinAll(rows[..|rows| - 1], labels, s);
    }
  }

  lemma {:induction false} WithinNone(rows: seq<nat>, labels: seq<string>, s: string)
    requires forall k :: 0 <= k < |rows| ==> rows[k] < |labels| && labels[rows[k]] != s
    ensures Within(rows, labels, s) == []
    decreases |rows|
  {
    if |rows| > 0 {
      WithinNone(rows[..|rows| - 1], labels, s);
    }
  }

  /** Grouping the stratified draw by label gives back each stratum's own
      draw: the groups `groupby('Strata')` forms are the per-stratum
      samples, with `alloc[h]` rows each. */
  lemma {:induction false} GroupsOfDraw(labels: seq<string>, d: seq<string>, alloc: seq<int>, seed: int,
                                        pick: (nat, nat, int) -> seq<nat>, h: nat)
    requires Picks(pick) && Fits(labels, d, alloc) && Unique(d) && h < |d|
    ensures Within(Stratified(labels, d, alloc, seed, pick), labels, d[h]) ==
      Chosen(labels, d[h], alloc[h] as nat, seed, pick)
    decreases |d|
  {
    var k := |d| - 1;
    assert Fits(labels, d[..k], alloc[..k]);
    var init := Stratified(labels, d[..k], alloc[..k], seed, pick);
    var last := Chosen(labels, d[k], alloc[k] as nat, seed, pick);
    WithinAppend(init, last, labels, d[h]);
    if h == k {
      assert forall j :: 0 <= j < |init| ==> labels[init[j]] in d[..k];
      WithinNone(init, labels, d[h]);
      WithinAll(last, labels, d[h]);
    } else {
      GroupsOfDraw(labels, d[..k], alloc[..k], seed, pick, h);
      WithinNone(last, labels, d[h]);
    }
  }

  /** The draw holds `Σ alloc` rows, no row twice. */
  lemma {:induction false} DrawShape(labels: seq<string>, d: seq<string>, alloc: seq<int>, seed: int,
                                     pick: (nat, nat, int) -> seq<nat>)
    requires Picks(pick) && Fits(labels, d, alloc) && Unique(d)
    ensures |Stratified(labels, d, alloc, seed, pick)| == Total(alloc)
    ensures NoRepeats(Stratified(labels, d, alloc, seed, pick))
    decreases |d|
  {
    if |d| > 0 {
      var k := |d| - 1;
      assert Fits(labels, d[..k], alloc[..k]);
      DrawShape(labels, d[..k], alloc[..k], seed, pick);
      TotalSnoc(alloc[..k], alloc[k]);
      assert alloc[..k] + [alloc[k]] == alloc;
      var init := Stratified(labels, d[..k], alloc[..k], seed, pick);
      var last := Chosen(labels, d[k], alloc[k] as nat, seed, pick);
      ChosenDistinct(labels, d[k], alloc[k] as nat, seed, pick);
      assert forall j :: 0 <= j < |init| ==> labels[init[j]] in d[..k];
      ApartStrata(init, last, labels, d[k]);
    }
  }

  /** Rows of other strata followed by rows of stratum `s`: no row twice if
      neither part has one twice. */
  lemma ApartStrata(init: seq<nat>, last: seq<nat>, labels: seq<string>, s: string)
    requires NoRepeats(init) && NoRepeats(last)
    requires forall j :: 0 <= j < |init| ==> init[j] < |labels| && labels[init[j]] != s
    requires forall j :: 0 <= j < |last| ==> last[j] < |labels| && labels[last[j]] == s
    ensures NoRepeats(init + last)
  {
    var r := init + last;
    forall a, b | 0 <= a < b < |r|
      ensures r[a] != r[b]
    {
      if b >= |init| && a < |init| {
        assert labels[r[a]] != labels[r[b]];
      }
    }
  }

  lemma {:induction false} TotalSnoc(s: seq<int>, v: int)
    ensures Total(s + [v]) == Total(s) + v
  {
    if |s| > 0 {
      assert (s + [v])[1..] == s[1..] + [v];
      TotalSnoc(s[1..], v);
    } else {
      assert (s + [v])[1..] == [];
    }
  }

  /** One stratum's draw has no row twice. */
  lemma ChosenDistinct(labels: seq<string>, s: string, m: nat, seed: int, pick: (nat, nat, int) -> seq<nat>)
    requires Picks(pick) && m <= |Members(labels, s)|
    ensures NoRepeats(Chosen(labels, s, m, seed, pick))
  {
    var mem := Members(labels, s);
    MembersAscending(labels, s);
    var p := pick(|mem|, m, seed);
    forall k, l | 0 <= k < l < m
      ensures mem[p[k]] != mem[p[l]]
    {
      if p[k] < p[l] {
      } else {
        assert p[l] < p[k];
      }
    }
  }
}
