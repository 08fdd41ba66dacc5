/** The ordinary-least-squares helper `ONK`: level normalisation, dummy
    encoding of categorical columns, intercept insertion, significance stars,
    backward elimination, prediction and the equation string.  The linear
    algebra (normal equations, standard errors) is an oracle: `Fitter`
    returns the coefficients, their standard errors and t-statistics for a
    design matrix and a response. */
module LeastSquares {
  import opened Outcomes
  import opened Stats
  import opened Levels
  import opened Frames

  // ------------------------------------------------------------ labels

  predicate StartsWith(s: string, prefix: string)
  {
    |prefix| <= |s| && s[..|prefix|] == prefix
  }

  /** `str.contains` with a literal pattern. */
  predicate Contains(s: string, sub: string)
    decreases |s|
  {
    StartsWith(s, sub) || (|s| > 0 && Contains(s[1..], sub))
  }

  /** A coefficient the elimination loop may drop: its label contains
      neither "region" nor "const". */
  predicate Eligible(name: string)
  {
    !Contains(name, "region") && !Contains(name, "const")
  }

  lemma ContainsItself(s: string)
    ensures Contains(s, s)
  {
  }

  lemma ConstNotEligible()
    ensures !Eligible("const")
  {
    ContainsItself("const");
  }

  /** The column labels whose presence makes `fit` run the dummy encoding. */
  const CategoryNames: seq<string> := ["region", "zene", "urban", "obr3"]

  predicate HasCategory(f: Frame)
  {
    exists c :: c in CategoryNames && c in Names(f)
  }

  function Abs(v: real): real
  {
    if v < 0.0 then -v else v
  }

  /** ASCII lower-casing, enough to recognise "const" in any case. */
  function Lower(s: string): (r: string)
    ensures |r| == |s|
  {
    seq(|s|, i requires 0 <= i < |s| =>
      if 'A' <= s[i] <= 'Z' then (s[i] as int + 32) as char else s[i])
  }

  // ------------------------------------------------------ dummy encoding

  /** `(x[kat] == red).astype(float)`. */
  function Indicator(cells: seq<real>, v: real): (r: seq<real>)
    ensures |r| == |cells|
    ensures forall i :: 0 <= i < |cells| ==> r[i] == if cells[i] == v then 1.0 else 0.0
  {
    seq(|cells|, i requires 0 <= i < |cells| => if cells[i] == v then 1.0 else 0.0)
  }

  /** `sorted(x[kat].unique())[1:]`: every distinct value but the smallest. */
  function NonReference(cells: seq<real>): (r: seq<real>)
  {
    var u := SortedUnique(cells);
    if |u| == 0 then [] else u[1..]
  }

  /** The label `f'{kat}_{red}'`; `show` renders a value as Python's `str`. */
  function DummyName(cat: string, v: real, show: real -> string): string
  {
    cat + "_" + show(v)
  }

  /** The indicator columns one category contributes, in value order. */
  function DummyColumns(cat: string, cells: seq<real>, show: real -> string): (r: seq<Column>)
    ensures |r| == |NonReference(cells)|
    ensures forall p :: 0 <= p < |r| ==>
      r[p] == Column(DummyName(cat, NonReference(cells)[p], show), Indicator(cells, NonReference(cells)[p]))
  {
    var levels := NonReference(cells);
    seq(|levels|, p requires 0 <= p < |levels| =>
      Column(DummyName(cat, levels[p], show), Indicator(cells, levels[p])))
  }

  /** Column names that are new to `f` and distinct among themselves. */
  predicate Fresh(f: Frame, cs: seq<Column>)
  {
    (forall p :: 0 <= p < |cs| ==> cs[p].name !in Names(f)) &&
    (forall p, q :: 0 <= p < q < |cs| ==> cs[p].name != cs[q].name)
  }

  /** `x[name] = cells` for each column of `cs` in turn. */
  function AddColumns(f: Frame, cs: seq<Column>): (r: Frame)
    ensures r.rows == f.rows
    ensures forall nm :: nm in Names(f) ==> nm in Names(r)
    ensures WellFormed(f) && (forall p :: 0 <= p < |cs| ==> |cs[p].cells| == f.rows) ==> WellFormed(r)
    ensures Fresh(f, cs) ==> r.columns == f.columns + cs
    decreases |cs|
  {
    if |cs| == 0 then f
    else
      var g := AddColumns(f, cs[..|cs| - 1]);
      var c := cs[|cs| - 1];
      var r := Assign(g, c.name, c.cells);
      assert forall nm :: nm in Names(g) ==> nm in Names(r) by {
        forall nm | nm in Names(g) ensures nm in Names(r) {
          var j :| 0 <= j < |g.columns| && Names(g)[j] == nm;
          assert Names(r)[j] == nm;
        }
      }
      assert Fresh(f, cs) ==> Fresh(f, cs[..|cs| - 1]);
      assert Fresh(f, cs) ==> c.name !in Names(g) by {
        if Fresh(f, cs) {
          assert g.columns == f.columns + cs[..|cs| - 1];
        }
      }
      r
  }

  /** One pass of the encoding loop for category `cat`: add its indicator
      columns, then drop the category itself.  A missing label raises. */
  function EncodeCategory(f: Frame, cat: string, show: real -> string): (r: Result<Frame>)
    ensures r.Failure? <==> cat !in Names(f)
    ensures r.Failure? ==> r.fault == MissingColumn(cat)
    ensures r.Success? ==> r.value.rows == f.rows
  {
    match Lookup(f, cat)
    case Failure(e) => Failure(e)
    case Success(cells) => Drop(AddColumns(f, DummyColumns(cat, cells, show)), cat)
  }

  /** How far the encoding of a category list got: the frame it left, the
      number of categories completed, and the fault that stopped it. */
  datatype Encoded = Encoded(frame: Frame, done: nat, fault: Option<Fault>)

  /** The categories encoded one after another; the first missing one stops
      the loop and leaves the frame as it stood. */
  function EncodeAll(f: Frame, cats: seq<string>, show: real -> string): (r: Encoded)
    ensures r.done <= |cats|
    ensures r.fault.None? ==> r.done == |cats|
    ensures r.frame.rows == f.rows
  {
    Steps(f, cats, (g, c) => EncodeCategory(g, c, show))
  }

  /** `step` applied to each category in turn while it succeeds. */
  function Steps(f: Frame, cats: seq<string>, step: (Frame, string) -> Result<Frame>): (r: Encoded)
    requires forall g, c :: step(g, c).Success? ==> step(g, c).value.rows == g.rows
    ensures r.done <= |cats|
    ensures r.fault.None? ==> r.done == |cats|
    ensures r.frame.rows == f.rows
    decreases |cats|
  {
    if |cats| == 0 then Encoded(f, 0, None)
    else match step(f, cats[0])
      case Failure(err) => Encoded(f, 0, Some(err))
      case Success(g) => Later(Steps(g, cats[1..], step), 1)
  }

  /** The loop stops at the first category missing from the frame it has
      built so far, and reports that category. */
  lemma EncodeAllFault(f: Frame, cats: seq<string>, show: real -> string)
    ensures EncodeAll(f, cats, show).fault.Some? ==>
      EncodeAll(f, cats, show).done < |cats| &&
      EncodeAll(f, cats, show).fault == Some(MissingColumn(cats[EncodeAll(f, cats, show).done]))
  {
    StepsFault(f, cats, (g, c) => EncodeCategory(g, c, show));
  }

  lemma {:induction false} StepsFault(f: Frame, cats: seq<string>, step: (Frame, string) -> Result<Frame>)
    requires forall g, c :: step(g, c).Success? ==> step(g, c).value.rows == g.rows
    requires forall g, c :: step(g, c).Failure? ==> step(g, c).fault == MissingColumn(c)
    ensures Steps(f, cats, step).fault.Some? ==>
      Steps(f, cats, step).done < |cats| &&
      Steps(f, cats, step).fault == Some(MissingColumn(cats[Steps(f, cats, step).done]))
    decreases |cats|
  {
    if |cats| > 0 {
      var e := Steps(f, cats, step);
      var next := step(f, cats[0]);
      if next.Success? {
        var rest := Steps(next.value, cats[1..], step);
        assert e == Later(rest, 1);
        StepsFault(next.value, cats[1..], step);
        if rest.fault.Some? {
          assert cats[e.done] == cats[1..][rest.done];
        }
      }
    }
  }

  /** An encoding that started `k` categories later. */
  function Later(e: Encoded, k: nat): (r: Encoded)
    ensures r.frame == e.frame && r.fault == e.fault && r.done == e.done + k
  {
    Encoded(e.frame, e.done + k, e.fault)
  }

  /** `x.insert(0, 'const', 1)` unless a `const` column exists. */
  function WithConst(f: Frame): (r: Frame)
    ensures r.rows == f.rows && (WellFormed(f) ==> WellFormed(r))
    ensures "const" in Names(r)
    ensures "const" in Names(f) ==> r == f
    ensures "const" !in Names(f) ==> r == InsertFirst(f, "const", Constant(1.0, f.rows))
  {
    if "const" in Names(f) then f
    else
      var r := InsertFirst(f, "const", Constant(1.0, f.rows));
      assert Names(r)[0] == "const";
      r
  }

  /** `vestacke(kategorije)` applied to `start`: the intercept first, then
      the categories; iterating over `None` raises. */
  function EncodeList(start: Frame, kategorije: Option<seq<string>>, show: real -> string): (r: Encoded)
    ensures r.frame.rows == start.rows
  {
    var w := WithConst(start);
    if kategorije.None? then Encoded(w, 0, Some(NotIterable))
    else EncodeAll(w, kategorije.value, show)
  }

  /** The encoding of a well-formed frame is well formed, however far it
      got. */
  lemma EncodeListWellFormed(start: Frame, kategorije: Option<seq<string>>, show: real -> string)
    requires WellFormed(start)
    ensures WellFormed(EncodeList(start, kategorije, show).frame)
  {
    if kategorije.Some? {
      EncodeAllWellFormed(WithConst(start), kategorije.value, show);
    }
  }

  lemma {:induction false} EncodeAllWellFormed(f: Frame, cats: seq<string>, show: real -> string)
    requires WellFormed(f)
    ensures WellFormed(EncodeAll(f, cats, show).frame)
    decreases |cats|
  {
    if |cats| > 0 {
      EncodeCategoryWellFormed(f, cats[0], show);
      var step := EncodeCategory(f, cats[0], show);
      if step.Success? {
        EncodeAllWellFormed(step.value, cats[1..], show);
      }
    }
  }

  lemma AddColumnsStep(f: Frame, cs: seq<Column>, j: nat)
    requires j < |cs|
    ensures AddColumns(f, cs[..j + 1]) == Assign(AddColumns(f, cs[..j]), cs[j].name, cs[j].cells)
  {
    assert cs[..j + 1][..j] == cs[..j];
  }

  /** Encoding a category of a well-formed frame keeps it well formed. */
  lemma EncodeCategoryWellFormed(f: Frame, cat: string, show: real -> string)
    requires WellFormed(f)
    ensures EncodeCategory(f, cat, show).Success? ==>
      WellFormed(EncodeCategory(f, cat, show).value) && EncodeCategory(f, cat, show).value.rows == f.rows
  {
    var found := Lookup(f, cat);
    if found.Success? {
      var k :| 0 <= k < |f.columns| && f.columns[k] == Column(cat, found.value);
      assert |found.value| == f.rows;
      var d := DummyColumns(cat, found.value, show);
      assert forall p :: 0 <= p < |d| ==> |d[p].cells| == f.rows;
    }
  }

  /** The body of the encoding loop for one category: look the column up,
      assign one indicator column per non-reference value, drop the column. */
  method EncodeOne(f: Frame, cat: string, show: real -> string) returns (r: Result<Frame>)
    requires WellFormed(f)
    ensures r == EncodeCategory(f, cat, show)
    ensures r.Success? ==> WellFormed(r.value) && r.value.rows == f.rows
  {
    EncodeCategoryWellFormed(f, cat, show);
    var found := Lookup(f, cat);
    if found.Failure? {
      return Failure(found.fault);
    }
    var cells := found.value;
    var levels := NonReference(cells);
    ghost var dummies := DummyColumns(cat, cells, show);
    var work := f;
    var j := 0;
    while j < |levels|
      invariant 0 <= j <= |levels|
      invariant work == AddColumns(f, dummies[..j])
    {
      AddColumnsStep(f, dummies, j);
      work := Assign(work, DummyName(cat, levels[j], show), Indicator(cells, levels[j]));
      j := j + 1;
    }
    assert dummies[..j] == dummies;
    assert cat in Names(work);
    r := Drop(work, cat);
  }

  /** The outer loop of `vestacke` over the category list. */
  method EncodeCats(start: Frame, cats: seq<string>, show: real -> string) returns (e: Encoded)
    requires WellFormed(start)
    ensures e == EncodeAll(start, cats, show)
    ensures WellFormed(e.frame)
  {
    var work := start;
    var i := 0;
    assert cats[0..] == cats;
    while i < |cats|
      invariant 0 <= i <= |cats|
      invariant EncodeAll(start, cats, show) == Later(EncodeAll(work, cats[i..], show), i)
      invariant WellFormed(work)
    {
      assert cats[i..][0] == cats[i] && cats[i..][1..] == cats[i + 1..];
      var step := EncodeOne(work, cats[i], show);
      if step.Failure? {
        return Encoded(work, i, Some(step.fault));
      }
      work := step.value;
      i := i + 1;
    }
    assert cats[i..] == [];
    return Encoded(work, i, None);
  }

  // -------------------------------------------------- dummy-encoding laws

  /** The encoding keeps every distinct value except the smallest, once. */
  lemma NonReferenceLevels(cells: seq<real>)
    requires |cells| > 0
    ensures |NonReference(cells)| == |SortedUnique(cells)| - 1
    ensures forall v :: v in NonReference(cells) <==> v in cells && v != SortedUnique(cells)[0]
    ensures forall i :: 0 <= i < |cells| ==> SortedUnique(cells)[0] <= cells[i]
    ensures StrictlyAscending(NonReference(cells))
  {
    var u := SortedUnique(cells);
    assert cells[0] in u;
    forall i | 0 <= i < |cells|
      ensures u[0] <= cells[i]
    {
      assert cells[i] in u;
      var k :| 0 <= k < |u| && u[k] == cells[i];
    }
    forall v
      ensures v in u[1..] <==> v in cells && v != u[0]
    {
      if v in cells && v != u[0] {
        assert v in u;
        var k :| 0 <= k < |u| && u[k] == v;
        assert u[1..][k - 1] == v;
      }
    }
  }

  /** `k` distinct values give `k` entries in `sorted(set(...))`, hence
      `k - 1` indicator columns. */
  lemma {:induction false} AscendingCount(s: seq<real>)
    requires StrictlyAscending(s)
    ensures |set v | v in s| == |s|
  {
    if |s| > 0 {
      AscendingCount(s[1..]);
      assert (set v | v in s) == {s[0]} + (set v | v in s[1..]);
      assert s[0] !in (set v | v in s[1..]);
    }
  }

  lemma DummyCount(cells: seq<real>, cat: string, show: real -> string)
    requires |cells| > 0
    ensures |DummyColumns(cat, cells, show)| == |set v | v in cells| - 1
  {
    NonReferenceLevels(cells);
    AscendingCount(SortedUnique(cells));
    assert (set v | v in cells) == (set v | v in SortedUnique(cells));
  }

  /** Within one category's indicator columns a row holds at most one 1, and
      all of them are 0 exactly when the row holds the smallest value. */
  lemma IndicatorsOneHot(cells: seq<real>, cat: string, show: real -> string, i: nat)
    requires i < |cells|
    ensures var d := DummyColumns(cat, cells, show);
      forall p, q :: 0 <= p < q < |d| ==> d[p].cells[i] == 0.0 || d[q].cells[i] == 0.0
    ensures var d := DummyColumns(cat, cells, show);
      (forall p :: 0 <= p < |d| ==> d[p].cells[i] == 0.0) <==> cells[i] == SortedUnique(cells)[0]
  {
    var d := DummyColumns(cat, cells, show);
    var levels := NonReference(cells);
    NonReferenceLevels(cells);
    if cells[i] != SortedUnique(cells)[0] {
      assert cells[i] in levels;
      var p :| 0 <= p < |levels| && levels[p] == cells[i];
      assert d[p].cells[i] == 1.0;
    }
  }

  lemma {:induction false} WithoutAppend(a: seq<Column>, b: seq<Column>, name: string)
    ensures Without(a + b, name) == Without(a, name) + Without(b, name)
  {
    if |a| > 0 {
      assert (a + b)[1..] == a[1..] + b;
      WithoutAppend(a[1..], b, name);
    } else {
      assert a + b == b;
    }
  }

  lemma {:induction false} WithoutAbsent(cs: seq<Column>, name: string)
    requires forall p :: 0 <= p < |cs| ==> cs[p].name != name
    ensures Without(cs, name) == cs
  {
    if |cs| > 0 {
      WithoutAbsent(cs[1..], name);
      assert cs == [cs[0]] + cs[1..];
    }
  }

  lemma PrefixCancel(prefix: string, a: string, b: string)
    requires a != b
    ensures prefix + a != prefix + b
  {
    assert (prefix + a)[|prefix|..] == a;
    assert (prefix + b)[|prefix|..] == b;
  }

  /** When the rendered values are distinct and their labels new, encoding a
      category removes its column, keeps every other column in order, and
      appends one indicator column per non-reference value. */
  lemma EncodeCategoryColumns(f: Frame, cat: string, cells: seq<real>, show: real -> string)
    requires Lookup(f, cat) == Success(cells)
    requires forall u, v :: u in cells && v in cells && u != v ==> show(u) != show(v)
    requires forall v :: v in cells ==> DummyName(cat, v, show) !in Names(f)
    ensures EncodeCategory(f, cat, show) ==
      Success(Frame(f.rows, Without(f.columns, cat) + DummyColumns(cat, cells, show)))
  {
    var d := DummyColumns(cat, cells, show);
    var levels := NonReference(cells);
    if |cells| > 0 {
      NonReferenceLevels(cells);
    }
    assert forall p :: 0 <= p < |levels| ==> levels[p] in cells;
    forall p, q | 0 <= p < q < |d|
      ensures d[p].name != d[q].name
    {
      assert levels[p] < levels[q];
      PrefixCancel(cat + "_", show(levels[p]), show(levels[q]));
    }
    assert Fresh(f, d);
    forall p | 0 <= p < |d|
      ensures d[p].name != cat
    {
      assert |d[p].name| > |cat|;
    }
    WithoutAppend(f.columns, d, cat);
    WithoutAbsent(d, cat);
  }

  // ------------------------------------------------ significance stars

  /** `{a: abs(t.ppf(a / 2, df)) for a in alfa}`; `tppf` is the Student t
      quantile function. */
  function CriticalValues(levels: seq<real>, df: int, tppf: (real, int) -> real): (r: map<real, real>)
    ensures forall a :: a in r <==> a in levels
    ensures forall a :: a in r ==> 0.0 <= r[a] && Abs(r[a]) == Abs(tppf(a / 2.0, df))
  {
    map a | a in levels :: Abs(tppf(a / 2.0, df))
  }

  predicate HasDefaults(crit: map<real, real>)
  {
    0.1 in crit && 0.05 in crit && 0.01 in crit
  }

  lemma CriticalValuesHaveDefaults(levels: seq<real>, df: int, tppf: (real, int) -> real)
    requires forall d :: d in Defaults ==> d in levels
    ensures HasDefaults(CriticalValues(levels, df, tppf))
  {
    assert 0.1 in Defaults && 0.05 in Defaults && 0.01 in Defaults;
  }

  function Repeat(c: char, k: nat): (r: string)
    ensures |r| == k && forall i :: 0 <= i < k ==> r[i] == c
  {
    seq(k, _ => c)
  }

  /** How many of the 10%, 5% and 1% critical values `|tv|` reaches. */
  function Reached(tv: real, crit: map<real, real>): (r: nat)
    requires HasDefaults(crit)
    ensures r <= 3
  {
    (if Abs(tv) >= crit[0.1] then 1 else 0) +
    (if Abs(tv) >= crit[0.05] then 1 else 0) +
    (if Abs(tv) >= crit[0.01] then 1 else 0)
  }

  /** The `sig` marker of one coefficient. */
  function Stars(tv: real, crit: map<real, real>): (r: string)
    requires HasDefaults(crit)
    ensures |r| <= 3 && forall i :: 0 <= i < |r| ==> r[i] == '*'
    ensures |r| > 0 ==> Abs(tv) > crit[0.1]
    ensures Abs(tv) > crit[0.1] ==> |r| == Reached(tv, crit)
  {
    if Abs(tv) > crit[0.1] then Repeat('*', Reached(tv, crit)) else ""
  }

  /** With critical values that grow as the level shrinks, the marker is
      graded: one star past 10%, two past 5%, three past 1%. */
  lemma StarsGraded(tv: real, crit: map<real, real>)
    requires HasDefaults(crit)
    requires crit[0.1] <= crit[0.05] <= crit[0.01]
    ensures |Stars(tv, crit)| ==
      if Abs(tv) <= crit[0.1] then 0
      else if Abs(tv) < crit[0.05] then 1
      else if Abs(tv) < crit[0.01] then 2
      else 3
  {
  }

  // ----------------------------------------------------- elimination step

  /** Every droppable coefficient is significant at critical value `crit`. */
  predicate Settled(names: seq<string>, tstat: seq<real>, crit: real)
    requires |names| == |tstat|
  {
    forall j :: 0 <= j < |names| && Eligible(names[j]) ==> crit <= Abs(tstat[j])
  }

  /** The first position from `i` on whose coefficient is droppable and
      has `|t|` below `crit`. */
  function FirstBelow(names: seq<string>, tstat: seq<real>, crit: real, i: nat): (r: Option<nat>)
    requires |names| == |tstat| && i <= |names|
    ensures r.Some? ==> i <= r.value < |names| && Eligible(names[r.value]) && Abs(tstat[r.value]) < crit
    ensures forall j :: i <= j < |names| && (r.None? || j < r.value) ==> !(Eligible(names[j]) && Abs(tstat[j]) < crit)
    decreases |names| - i
  {
    if i == |names| then None
    else if Eligible(names[i]) && Abs(tstat[i]) < crit then Some(i)
    else FirstBelow(names, tstat, crit, i + 1)
  }

  /** The scan of `fitsig` over the droppable coefficients: the position of
      the first one, in column order, whose `|t|` is below `crit`. */
  method FirstInsignificant(names: seq<string>, tstat: seq<real>, crit: real) returns (r: Option<nat>)
    requires |names| == |tstat|
    ensures r.Some? ==> r.value < |names| && Eligible(names[r.value]) && Abs(tstat[r.value]) < crit
    ensures r.Some? ==> Settled(names[..r.value], tstat[..r.value], crit)
    ensures r.None? ==> Settled(names, tstat, crit)
    ensures r == FirstBelow(names, tstat, crit, 0)
  {
    var i := 0;
    while i < |names|
      invariant 0 <= i <= |names|
      invariant Settled(names[..i], tstat[..i], crit)
      invariant FirstBelow(names, tstat, crit, 0) == FirstBelow(names, tstat, crit, i)
    {
      if Eligible(names[i]) && Abs(tstat[i]) < crit {
        return Some(i);
      }
      i := i + 1;
    }
    assert names[..i] == names && tstat[..i] == tstat;
    return None;
  }

  /** The test on line 100: every coefficient outside the droppable set,
      other than `const` itself, has `|b / bstd|` below `crit` (true when
      there is none).  A zero standard error gives an infinite or undefined
      ratio, which is never below `crit`. */
  predicate GroupInsignificant(names: seq<string>, b: seq<real>, bstd: seq<real>, crit: real)
    requires |names| == |b| == |bstd|
  {
    forall j :: 0 <= j < |names| && !Eligible(names[j]) && names[j] != "const" ==>
      bstd[j] != 0.0 && Abs(b[j] / bstd[j]) < crit
  }

  /** Some coefficient outside the droppable set is not `const`: without
      one the test on line 100 holds vacuously. */
  predicate HasGroup(names: seq<string>)
  {
    exists j :: 0 <= j < |names| && !Eligible(names[j]) && names[j] != "const"
  }

  /** Such a coefficient survives into any design that keeps its labels. */
  lemma GroupKept(a: seq<string>, b: seq<string>)
    requires HasGroup(a) && forall nm :: nm in a ==> nm in b
    ensures HasGroup(b)
  {
    var j :| 0 <= j < |a| && !Eligible(a[j]) && a[j] != "const";
    assert a[j] in b;
    var k :| 0 <= k < |b| && b[k] == a[j];
  }

  // ----------------------------------------------------------- prediction

  /** A pandas Series indexed by labels (the coefficients `b`). */
  datatype Labelled = Labelled(index: seq<string>, values: seq<real>)

  predicate Consistent(c: Labelled)
  {
    |c.index| == |c.values|
  }

  /** `x @ b` needs the column labels and the coefficient labels to agree as
      sets; pandas then re-orders `b` by the columns. */
  predicate SameLabels(f: Frame, coef: Labelled)
  {
    (forall nm :: nm in Names(f) ==> nm in coef.index) &&
    (forall nm :: nm in coef.index ==> nm in Names(f))
  }

  /** The value `coef[name]` (the first entry with that label). */
  function ValueAt(coef: Labelled, name: string): (r: real)
    requires Consistent(coef) && name in coef.index
    ensures exists k :: 0 <= k < |coef.index| && coef.index[k] == name && coef.values[k] == r
    decreases |coef.index|
  {
    if coef.index[0] == name then coef.values[0]
    else
      var r := ValueAt(Labelled(coef.index[1..], coef.values[1..]), name);
      var k :| 0 <= k < |coef.index| - 1 && coef.index[1..][k] == name && coef.values[1..][k] == r;
      assert coef.index[k + 1] == name && coef.values[k + 1] == r;
      r
  }

  /** `b` re-indexed by the columns of `f`. */
  function Align(f: Frame, coef: Labelled): (r: seq<real>)
    requires Consistent(coef) && SameLabels(f, coef)
    ensures |r| == |f.columns|
    ensures forall j :: 0 <= j < |f.columns| ==> r[j] == ValueAt(coef, f.columns[j].name)
  {
    seq(|f.columns|, j requires 0 <= j < |f.columns| =>
      assert Names(f)[j] == f.columns[j].name;
      ValueAt(coef, f.columns[j].name))
  }

  datatype Prediction = Rows(values: seq<real>) | Scalar(value: real)

  /** `predict` on a given frame: the row-wise products `x @ b`, or their
      mean when `mean` is set, or else their sum when `total` is set. */
  function PredictOn(f: Frame, coef: Labelled, mean: bool, total: bool): (r: Result<Prediction>)
    requires WellFormed(f) && Consistent(coef)
    ensures r.Failure? <==> !SameLabels(f, coef) || (mean && f.rows == 0)
    ensures r.Failure? && !SameLabels(f, coef) ==> r.fault == Unaligned
    ensures r.Success? && !mean && !total ==> r.value.Rows? && |r.value.values| == f.rows
    ensures r.Success? && !mean && !total ==> forall i :: 0 <= i < f.rows ==>
      r.value.values[i] == Dot(Row(f, i), Align(f, coef))
    ensures r.Success? && (mean || total) ==> r.value.Scalar?
  {
    if !SameLabels(f, coef) then Failure(Unaligned)
    else
      var p := RowDots(f, Align(f, coef));
      if mean then
        if f.rows == 0 then Failure(NonFinite) else Success(Scalar(Mean(p)))
      else if total then Success(Scalar(Sum(p)))
      else Success(Rows(p))
  }

  /** The mean prediction is the prediction at the column means. */
  lemma PredictMeanAtColumnMeans(f: Frame, coef: Labelled, total: bool)
    requires WellFormed(f) && Consistent(coef) && SameLabels(f, coef) && f.rows > 0
    ensures PredictOn(f, coef, true, total) == Success(Scalar(Dot(ColumnMeans(f), Align(f, coef))))
  {
    MeanRowDots(f, Align(f, coef));
  }

  /** The predicted total is the number of rows times the predicted mean. */
  lemma PredictTotalIsRowsTimesMean(f: Frame, coef: Labelled)
    requires WellFormed(f) && Consistent(coef) && SameLabels(f, coef) && f.rows > 0
    ensures PredictOn(f, coef, false, true).Success? && PredictOn(f, coef, true, false).Success?
    ensures PredictOn(f, coef, false, true).value.value ==
      f.rows as real * PredictOn(f, coef, true, false).value.value
  {
  }

  // -------------------------------------------------------------- equation

  /** One term of `matOblik`: the coefficient alone for `const` (in any
      case), otherwise the coefficient, " *" and the variable. */
  function Term(name: string, v: real, fmt: real -> string): string
  {
    if Lower(name) == "const" then fmt(v) else fmt(v) + " *" + name
  }

  function Terms(coef: Labelled, fmt: real -> string): (r: seq<string>)
    requires Consistent(coef)
    ensures |r| == |coef.index|
    ensures forall j :: 0 <= j < |r| ==> r[j] == Term(coef.index[j], coef.values[j], fmt)
  {
    seq(|coef.index|, j requires 0 <= j < |coef.index| => Term(coef.index[j], coef.values[j], fmt))
  }

  /** `sep.join(ts)`. */
  function Join(ts: seq<string>, sep: string): string
  {
    if |ts| == 0 then "" else if |ts| == 1 then ts[0] else ts[0] + sep + Join(ts[1..], sep)
  }

  function TotalLength(ts: seq<string>): nat
  {
    if |ts| == 0 then 0 else |ts[0]| + TotalLength(ts[1..])
  }

  /** A join holds every piece and one separator between each neighbouring
      pair. */
  lemma {:induction false} JoinLength(ts: seq<string>, sep: string)
    requires |ts| > 0
    ensures |Join(ts, sep)| == TotalLength(ts) + (|ts| - 1) * |sep|
  {
    if |ts| > 1 {
      JoinLength(ts[1..], sep);
    }
  }

  /** Appending a piece extends the join by the separator and the piece. */
  lemma {:induction false} JoinSnoc(ts: seq<string>, t: string, sep: string)
    requires |ts| > 0
    ensures Join(ts + [t], sep) == Join(ts, sep) + sep + t
  {
    if |ts| == 1 {
      assert (ts + [t])[1..] == [t];
    } else {
      assert (ts + [t])[1..] == ts[1..] + [t];
      JoinSnoc(ts[1..], t, sep);
    }
  }

  // -------------------------------------------------------------- the model

  /** What the linear-algebra oracle returns for one fit. */
  datatype Estimates = Estimates(b: seq<real>, bstd: seq<real>, tstat: seq<real>)

  /** The table `fit` returns: one row per column of the design matrix. */
  datatype Summary = Summary(index: seq<string>, b: seq<real>, bstd: seq<real>, tstat: seq<real>, sig: seq<string>)

  /** The oracle answers with one estimate per column, or `None` when X'X
      is singular. */
  ghost predicate Shaped(fitter: (Frame, seq<real>) -> Option<Estimates>)
  {
    forall f, yv :: fitter(f, yv).Some? ==>
      |fitter(f, yv).value.b| == |f.columns| &&
      |fitter(f, yv).value.bstd| == |f.columns| &&
      |fitter(f, yv).value.tstat| == |f.columns|
  }

  /** The frame `fit` hands to the normal equations: dummies when a
      category column is present, then the intercept if asked for. */
  function Prepare(x: Frame, konstanta: bool, kategorije: Option<seq<string>>, show: real -> string): (r: Encoded)
    ensures r.frame.rows == x.rows
  {
    var e := if HasCategory(x) then EncodeList(x, kategorije, show) else Encoded(x, 0, None);
    if e.fault.Some? then e
    else Encoded(if konstanta then WithConst(e.frame) else e.frame, e.done, None)
  }

  /** Without a category list, `fit` adds the intercept and nothing else;
      a category column makes it iterate over `None`, which raises.  A frame
      prepared this way is left as it is by the next such `fit`. */
  lemma PrepareWithoutList(x: Frame, show: real -> string)
    ensures Prepare(x, true, None, show).frame == WithConst(x)
    ensures Prepare(x, true, None, show).fault == if HasCategory(x) then Some(NotIterable) else None
    ensures !HasCategory(x) ==> Prepare(WithConst(x), true, None, show) == Encoded(WithConst(x), 0, None)
    ensures !HasCategory(x) ==> !HasCategory(WithConst(x))
  {
    if !HasCategory(x) {
      assert forall c :: c in CategoryNames ==> c != "const";
      assert !HasCategory(WithConst(x));
    }
  }

  /** The coefficient `fitsig` drops from the design `g`, fitted to `yv`,
      at critical value `cut`: the first droppable one whose `|t|` is below
      it; none when the fit fails or all are significant. */
  ghost function DropTarget(g: Frame, yv: seq<real>, cut: real,
                            fitter: (Frame, seq<real>) -> Option<Estimates>): (r: Option<string>)
    requires Shaped(fitter)
    ensures r.Some? ==> r.value in Names(g) && Eligible(r.value) && r.value != "const"
  {
    if |yv| != g.rows || fitter(g, yv).None? then None
    else
      match FirstBelow(Names(g), fitter(g, yv).value.tstat, cut, 0)
      case None => None
      case Some(k) =>
        ConstNotEligible();
        Some(Names(g)[k])
  }

  /** `self.t[level]` for a fit of `f`: the critical value with
      `rows - columns` degrees of freedom, when `level` is one of `alfa`. */
  function Cut(f: Frame, level: real, alfa: seq<real>, tppf: (real, int) -> real): Option<real>
  {
    if level in alfa then Some(Abs(tppf(level / 2.0, f.rows - |f.columns|))) else None
  }

  /** `Cut` is the entry for `level` in the table of critical values. */
  lemma CutIsCritical(f: Frame, level: real, alfa: seq<real>, tppf: (real, int) -> real)
    ensures var crit := CriticalValues(alfa, f.rows - |f.columns|, tppf);
      var r := Cut(f, level, alfa, tppf);
      (r.Some? <==> level in crit) && (r.Some? ==> r.value == crit[level])
  {
  }

  /** `g` without the column `name`, which keeps the intercept. */
  function Dropped(g: Frame, name: string): (r: Frame)
    requires name in Names(g) && "const" in Names(g) && name != "const"
    ensures "const" in Names(r) && |r.columns| < |g.columns|
  {
    DropKeepsOthers(g, name, "const");
    Drop(g, name).value
  }

  /** The width `fitsig` works with: the columns of `f` and the intercept
      the next fit adds. */
  function Width(f: Frame): nat
  {
    |f.columns| + if "const" in Names(f) then 0 else 1
  }

  /** The design `fitsig` ends with, started from `f`: the intercept is
      added, the model is fitted with critical values for `f`'s own width,
      and the `DropTarget` coefficient is dropped, until there is none.  Where a
      fit fails the design reached so far is returned. */
  ghost function Backward(f: Frame, yv: seq<real>, level: real, alfa: seq<real>, tppf: (real, int) -> real,
                          fitter: (Frame, seq<real>) -> Option<Estimates>): Frame
    requires Shaped(fitter)
    decreases Width(f)
  {
    var g := WithConst(f);
    var cut := Cut(f, level, alfa, tppf);
    var target := if cut.None? then None else DropTarget(g, yv, cut.value, fitter);
    if target.None? then g else Backward(Dropped(g, target.value), yv, level, alfa, tppf, fitter)
  }

  /** `fitsig` started from `f` returns rather than raises: every fit on
      the way meets no category column, as many wages as rows and a
      regular X'X, `level` is one of `alfa`, and the last fit leaves some
      region coefficient significant (otherwise line 101 names the unbound
      `x`). */
  ghost predicate Eliminates(f: Frame, yv: seq<real>, level: real, alfa: seq<real>, tppf: (real, int) -> real,
                             fitter: (Frame, seq<real>) -> Option<Estimates>)
    requires Shaped(fitter)
    decreases Width(f)
  {
    var g := WithConst(f);
    && !HasCategory(f) && |yv| == g.rows && fitter(g, yv).Some? && level in alfa
    && var est := fitter(g, yv).value;
       var cut := Cut(f, level, alfa, tppf).value;
       match FirstBelow(Names(g), est.tstat, cut, 0)
       case Some(k) =>
         ConstNotEligible();
         Eliminates(Dropped(g, Names(g)[k]), yv, level, alfa, tppf, fitter)
       case None => !GroupInsignificant(Names(g), est.b, est.bstd, cut)
  }

  /** One round of `fitsig`: when the fit of `prior` with the intercept
      finds the droppable coefficient `k` insignificant, elimination goes on
      from the design without it. */
  lemma BackwardDrops(prior: Frame, yv: seq<real>, level: real, alfa: seq<real>, tppf: (real, int) -> real,
                      fitter: (Frame, seq<real>) -> Option<Estimates>, cut: real, k: nat)
    requires Shaped(fitter) && Cut(prior, level, alfa, tppf) == Some(cut)
    requires |yv| == WithConst(prior).rows && fitter(WithConst(prior), yv).Some?
    requires FirstBelow(Names(WithConst(prior)), fitter(WithConst(prior), yv).value.tstat, cut, 0) == Some(k)
    ensures var g := WithConst(prior);
      Backward(prior, yv, level, alfa, tppf, fitter) == Backward(Drop(g, Names(g)[k]).value, yv, level, alfa, tppf, fitter)
    ensures var g := WithConst(prior);
      !HasCategory(prior) ==>
        (Eliminates(prior, yv, level, alfa, tppf, fitter) <==> Eliminates(Drop(g, Names(g)[k]).value, yv, level, alfa, tppf, fitter))
  {
  }

  /** The last round of `fitsig`: when the fit of `prior` with the
      intercept finds every droppable coefficient significant, the design is
      final. */
  lemma BackwardStops(prior: Frame, yv: seq<real>, level: real, alfa: seq<real>, tppf: (real, int) -> real,
                      fitter: (Frame, seq<real>) -> Option<Estimates>, cut: real)
    requires Shaped(fitter) && Cut(prior, level, alfa, tppf) == Some(cut)
    requires |yv| == WithConst(prior).rows && fitter(WithConst(prior), yv).Some?
    requires FirstBelow(Names(WithConst(prior)), fitter(WithConst(prior), yv).value.tstat, cut, 0).None?
    ensures Backward(prior, yv, level, alfa, tppf, fitter) == WithConst(prior)
    ensures var est := fitter(WithConst(prior), yv).value;
      !HasCategory(prior) ==>
        (Eliminates(prior, yv, level, alfa, tppf, fitter) <==> !GroupInsignificant(Names(WithConst(prior)), est.b, est.bstd, cut))
  {
  }

  /** Backward elimination keeps the intercept and every region or `const`
      column, and adds no column of its own. */
  lemma {:induction false} BackwardKeeps(f: Frame, yv: seq<real>, level: real, alfa: seq<real>,
                                         tppf: (real, int) -> real, fitter: (Frame, seq<real>) -> Option<Estimates>)
    requires Shaped(fitter)
    ensures var r := Backward(f, yv, level, alfa, tppf, fitter);
      && "const" in Names(r) && r.rows == f.rows
      && (forall nm :: nm in Names(r) ==> nm in Names(WithConst(f)))
      && (forall nm :: nm in Names(WithConst(f)) && !Eligible(nm) ==> nm in Names(r))
    decreases Width(f)
  {
    var g := WithConst(f);
    var cut := Cut(f, level, alfa, tppf);
    var target := if cut.None? then None else DropTarget(g, yv, cut.value, fitter);
    if target.Some? {
      DropNames(g, target.value);
      BackwardKeeps(Dropped(g, target.value), yv, level, alfa, tppf, fitter);
    }
  }

  function StarsOf(tstat: seq<real>, crit: map<real, real>): (r: seq<string>)
    requires HasDefaults(crit)
    ensures |r| == |tstat| && forall j :: 0 <= j < |tstat| ==> r[j] == Stars(tstat[j], crit)
  {
    seq(|tstat|, j requires 0 <= j < |tstat| => Stars(tstat[j], crit))
  }

  /** The regression object.  Fields start unset (`None`) and the stages
      set them: `fit` sets `x`, `y`, `m`, `n`, `t`, `b`, `bstd`, `tstat`. */
  class Ols {
    var alfa: seq<real>
    var x: Option<Frame>
    var y: Option<Series>
    var m: Option<nat>
    var n: Option<nat>
    var t: Option<map<real, real>>
    var b: Option<Labelled>
    var bstd: Option<Labelled>
    var tstat: Option<Labelled>

    ghost predicate Valid()
      reads this
    {
      AllInRange(alfa) && (forall d :: d in Defaults ==> d in alfa) &&
      (x.Some? ==> WellFormed(x.value)) &&
      (b.Some? ==> Consistent(b.value)) &&
      (bstd.Some? ==> Consistent(bstd.value)) &&
      (tstat.Some? ==> Consistent(tstat.value))
    }

    constructor (levels: seq<real>)
      requires AllInRange(levels) && forall d :: d in Defaults ==> d in levels
      ensures Valid()
      ensures alfa == levels
      ensures x.None? && y.None? && m.None? && n.None? && t.None?
      ensures b.None? && bstd.None? && tstat.None?
    {
      alfa := levels;
      x, y, m, n, t := None, None, None, None, None;
      b, bstd, tstat := None, None, None;
    }

    /** `ONK(alfa)`: normalises the levels; an out-of-range level raises. */
    static method Create(arg: LevelArg) returns (r: Result<Ols>)
      ensures r.Failure? <==> Normalise(arg).Failure?
      ensures r.Failure? ==> r.fault == LevelOutOfRange
      ensures r.Success? ==> fresh(r.value) && r.value.Valid() && r.value.alfa == Normalise(arg).value
      ensures r.Success? ==> r.value.x.None? && r.value.b.None? && r.value.t.None?
    {
      var levels := Normalise(arg);
      if levels.Failure? {
        return Failure(levels.fault);
      }
      var o := new Ols(levels.value);
      return Success(o);
    }

    /** `vestacke(kategorije, x)`.  Without a frame it works on `self.x` in
        place (the intercept is inserted there at once); with one it works
        on a copy, which becomes `self.x` once a category is completed.
        Either way a failure leaves `self.x` as far as the loop got.  It
        returns `self.x`. */
    method Dummies(kategorije: Option<seq<string>>, given: Option<Frame>, show: real -> string)
      returns (r: Result<Option<Frame>>)
      requires Valid()
      requires given.Some? ==> WellFormed(given.value)
      modifies this`x
      ensures Valid()
      ensures given.None? && old(x).None? ==> r == Failure(Unset("x")) && x == old(x)
      ensures given.Some? || old(x).Some? ==>
        var e := EncodeList(if given.Some? then given.value else old(x).value, kategorije, show);
        x == (if given.None? || e.done > 0 then Some(e.frame) else old(x)) &&
        r == (if e.fault.Some? then Failure(e.fault.value) else Success(x))
    {
      var work: Frame;
      if given.None? {
        if x.None? {
          return Failure(Unset("x"));
        }
        work := x.value;
      } else {
        work := given.value;
      }
      work := WithConst(work);
      if given.None? {
        x := Some(work);
      }
      if kategorije.None? {
        return Failure(NotIterable);
      }
      var done := EncodeCats(work, kategorije.value, show);
      if given.None? || done.done > 0 {
        x := Some(done.frame);
      }
      if done.fault.Some? {
        return Failure(done.fault.value);
      }
      return Success(x);
    }

    /** Lines 50-57 of `fit`: the dummy encoding when a category column is
        present (on `self.x` in place), then the intercept if asked for, and
        the new column count. */
    method Design(xIn: Frame, konstanta: bool, kategorije: Option<seq<string>>, show: real -> string)
      returns (fault: Option<Fault>)
      requires Valid() && x == Some(xIn)
      modifies this`x, this`n
      ensures Valid()
      ensures x == Some(Prepare(xIn, konstanta, kategorije, show).frame)
      ensures fault == Prepare(xIn, konstanta, kategorije, show).fault
      ensures n == if fault.Some? then old(n) else Some(|x.value.columns|)
    {
      if HasCategory(xIn) {
        var done := Dummies(kategorije, None, show);
        if done.Failure? {
          return Some(done.fault);
        }
      }
      var design := x.value;
      if konstanta && "const" !in Names(design) {
        design := InsertFirst(design, "const", Constant(1.0, design.rows));
      }
      x := Some(design);
      n := Some(|design.columns|);
      return None;
    }

    /** Lines 60-74 of `fit`: the oracle's estimates for the design matrix,
        stored under its column labels, and the table with the stars.  A
        response of another length is not aligned with the rows; a singular
        X'X raises. */
    method Estimate(design: Frame, yv: seq<real>, fitter: (Frame, seq<real>) -> Option<Estimates>)
      returns (r: Result<Summary>)
      requires Valid() && Shaped(fitter) && t.Some? && HasDefaults(t.value)
      modifies this`b, this`bstd, this`tstat
      ensures Valid()
      ensures |yv| != design.rows ==> r == Failure(Unaligned)
      ensures |yv| == design.rows && fitter(design, yv).None? ==> r == Failure(Singular)
      ensures |yv| == design.rows && fitter(design, yv).Some? ==> r.Success?
      ensures r.Failure? ==> b == old(b) && bstd == old(bstd) && tstat == old(tstat)
      ensures r.Success? ==>
        |yv| == design.rows && fitter(design, yv).Some? &&
        var est := fitter(design, yv).value;
        b == Some(Labelled(Names(design), est.b)) &&
        bstd == Some(Labelled(Names(design), est.bstd)) &&
        tstat == Some(Labelled(Names(design), est.tstat)) &&
        r.value == Summary(Names(design), est.b, est.bstd, est.tstat, StarsOf(est.tstat, t.value))
    {
      if |yv| != design.rows {
        return Failure(Unaligned);
      }
      var est := fitter(design, yv);
      if est.None? {
        return Failure(Singular);
      }
      var names := Names(design);
      b := Some(Labelled(names, est.value.b));
      bstd := Some(Labelled(names, est.value.bstd));
      tstat := Some(Labelled(names, est.value.tstat));
      return Success(Summary(names, est.value.b, est.value.bstd, est.value.tstat, StarsOf(est.value.tstat, t.value)));
    }

    /** Lines 45-49 of `fit`: copies of the data, their shape and the
        critical values with `m - n` degrees of freedom. */
    method Record(xIn: Frame, yIn: Series, tppf: (real, int) -> real)
      requires Valid() && WellFormed(xIn)
      modifies this`x, this`y, this`m, this`n, this`t
      ensures Valid()
      ensures x == Some(xIn) && y == Some(yIn) && m == Some(xIn.rows) && n == Some(|xIn.columns|)
      ensures t == Some(CriticalValues(alfa, xIn.rows - |xIn.columns|, tppf)) && HasDefaults(t.value)
    {
      CriticalValuesHaveDefaults(alfa, xIn.rows - |xIn.columns|, tppf);
      x, y, m, n := Some(xIn), Some(yIn), Some(xIn.rows), Some(|xIn.columns|);
      t := Some(CriticalValues(alfa, xIn.rows - |xIn.columns|, tppf));
    }

    /** `fit(x, y, konstanta, kategorije)`.  The critical values are taken
        with `m - n` degrees of freedom, `n` counted before the intercept and
        the dummies are added, as written. */
    method Fit(xIn: Frame, yIn: Series, konstanta: bool, kategorije: Option<seq<string>>,
               show: real -> string, tppf: (real, int) -> real,
               fitter: (Frame, seq<real>) -> Option<Estimates>) returns (r: Result<Summary>)
      requires Valid() && WellFormed(xIn) && Shaped(fitter)
      modifies this
      ensures Valid() && alfa == old(alfa)
      ensures y == Some(yIn) && m == Some(xIn.rows)
      ensures t == Some(CriticalValues(alfa, xIn.rows - |xIn.columns|, tppf))
      ensures x == Some(Prepare(xIn, konstanta, kategorije, show).frame)
      ensures Prepare(xIn, konstanta, kategorije, show).fault.Some? ==>
        r == Failure(Prepare(xIn, konstanta, kategorije, show).fault.value) &&
        n == Some(|xIn.columns|)
      ensures Prepare(xIn, konstanta, kategorije, show).fault.None? ==>
        n == Some(|x.value.columns|) &&
        (|yIn.values| != xIn.rows ==> r == Failure(Unaligned)) &&
        (|yIn.values| == xIn.rows && fitter(x.value, yIn.values).None? ==> r == Failure(Singular)) &&
        (|yIn.values| == xIn.rows && fitter(x.value, yIn.values).Some? ==> r.Success?)
      ensures r.Failure? ==> b == old(b) && bstd == old(bstd) && tstat == old(tstat)
      ensures r.Success? ==>
        Prepare(xIn, konstanta, kategorije, show).fault.None? && |yIn.values| == xIn.rows &&
        fitter(x.value, yIn.values).Some? &&
        var est := fitter(x.value, yIn.values).value;
        b == Some(Labelled(Names(x.value), est.b)) &&
        bstd == Some(Labelled(Names(x.value), est.bstd)) &&
        tstat == Some(Labelled(Names(x.value), est.tstat)) &&
        r.value == Summary(Names(x.value), est.b, est.bstd, est.tstat, StarsOf(est.tstat, t.value))
    {
      Record(xIn, yIn, tppf);
      var fault := Design(xIn, konstanta, kategorije, show);
      if fault.Some? {
        return Failure(fault.value);
      }
      r := Estimate(x.value, yIn.values, fitter);
    }

    /** The termination measure of `fitsig`: the columns of `x`, plus the
        intercept the next `fit` will add. */
    ghost function Measure(): nat
      reads this
    {
      if x.None? then 0
      else |x.value.columns| + if "const" in Names(x.value) then 0 else 1
    }

    /** The model holds the fit of its own `x` and `y`: `b`, `bstd` and
        `tstat` are the fitter's estimates labelled by the columns of `x`,
        and `s` is the summary `fit` returns for them. */
    ghost predicate Fits(s: Summary, fitter: (Frame, seq<real>) -> Option<Estimates>)
      reads this
    {
      && x.Some? && y.Some? && t.Some? && HasDefaults(t.value)
      && |y.value.values| == x.value.rows && fitter(x.value, y.value.values).Some?
      && var est := fitter(x.value, y.value.values).value;
         && b == Some(Labelled(Names(x.value), est.b))
         && bstd == Some(Labelled(Names(x.value), est.bstd))
         && tstat == Some(Labelled(Names(x.value), est.tstat))
         && s == Summary(Names(x.value), est.b, est.bstd, est.tstat, StarsOf(est.tstat, t.value))
    }

    /** `self.fit(self.x, self.y)` as `fitsig` calls it: with the intercept
        and no category list, so the design matrix is `x` with `const`. */
    method Refit(show: real -> string, tppf: (real, int) -> real,
                 fitter: (Frame, seq<real>) -> Option<Estimates>) returns (r: Result<Summary>)
      requires Valid() && Shaped(fitter) && x.Some? && y.Some?
      modifies this
      ensures Valid() && alfa == old(alfa) && y == old(y)
      ensures x == Some(WithConst(old(x).value))
      ensures Measure() == old(Measure())
      ensures t == Some(CriticalValues(alfa, old(x).value.rows - |old(x).value.columns|, tppf))
      ensures HasDefaults(t.value)
      ensures HasCategory(old(x).value) ==> r == Failure(NotIterable)
      ensures !HasCategory(old(x).value) && |y.value.values| != x.value.rows ==> r == Failure(Unaligned)
      ensures !HasCategory(old(x).value) && |y.value.values| == x.value.rows ==>
        (fitter(x.value, y.value.values).None? ==> r == Failure(Singular)) &&
        (fitter(x.value, y.value.values).Some? ==> r.Success?)
      ensures r.Success? ==> Fits(r.value, fitter)
      ensures r.Success? ==>
        |y.value.values| == x.value.rows && fitter(x.value, y.value.values).Some? &&
        r.value.index == Names(x.value) &&
        r.value.tstat == fitter(x.value, y.value.values).value.tstat &&
        |r.value.b| == |r.value.bstd| == |r.value.index|
      ensures r.Success? ==> b.Some? && b.value.index == Names(x.value)
    {
      var x0 := x.value;
      PrepareWithoutList(x0, show);
      CriticalValuesHaveDefaults(alfa, x0.rows - |x0.columns|, tppf);
      r := Fit(x0, y.value, true, None, show, tppf, fitter);
    }

    /** `self.x = self.x.drop(name, axis=1)` and `self.n = self.x.shape[1]`. */
    method DropColumn(name: string)
      requires Valid() && x.Some? && name in Names(x.value) && "const" in Names(x.value)
      requires name != "const"
      modifies this`x, this`n
      ensures Valid()
      ensures x == Some(Drop(old(x).value, name).value) && n == Some(|x.value.columns|)
      ensures "const" in Names(x.value) && Measure() < old(Measure())
    {
      DropKeepsOthers(x.value, name, "const");
      x := Some(Drop(x.value, name).value);
      n := Some(|x.value.columns|);
    }

    /** `fitsig(alfa)`: fit with the intercept, then `Eliminate`. */
    method FitSig(level: real, show: real -> string, tppf: (real, int) -> real,
                  fitter: (Frame, seq<real>) -> Option<Estimates>) returns (r: Result<Summary>)
      requires Valid() && Shaped(fitter)
      modifies this
      ensures Valid() && alfa == old(alfa) && y == old(y)
      ensures old(x).None? ==> r == Failure(Unset("x"))
      ensures old(x).Some? && old(y).None? ==> r == Failure(Unset("y"))
      ensures r.Success? <==>
        old(x).Some? && old(y).Some? && Eliminates(old(x).value, old(y).value.values, level, alfa, tppf, fitter)
      ensures r.Success? ==>
        old(x).Some? && old(y).Some? && x == Some(Backward(old(x).value, old(y).value.values, level, alfa, tppf, fitter))
      ensures r.Success? ==> Fits(r.value, fitter)
      ensures r.Success? ==> x.Some? && b.Some? && b.value.index == Names(x.value)
      ensures r.Success? ==> HasGroup(Names(x.value))
      ensures r.Success? && old(x).Some? && "const" in Names(old(x).value) ==>
        t.Some? && level in t.value && x.Some? && r.value.index == Names(x.value) &&
        |r.value.tstat| == |r.value.index| &&
        Settled(r.value.index, r.value.tstat, t.value[level])
      decreases Measure(), 2
    {
      if x.None? {
        return Failure(Unset("x"));
      }
      if y.None? {
        return Failure(Unset("y"));
      }
      var first := Refit(show, tppf, fitter);
      if first.Failure? {
        return first;
      }
      r := Eliminate(level, first.value, show, tppf, fitter, old(x).value);
    }

    /** The rest of `fitsig` once `first` is fitted on `x`, which is
        `prior` with the intercept: drop the first droppable coefficient that
        is insignificant at `level` and start again, or, when there is none,
        conclude.  The design reached is the one `Backward` specifies, and
        when `prior` already had the intercept a success is settled. */
    method Eliminate(level: real, first: Summary, show: real -> string, tppf: (real, int) -> real,
                     fitter: (Frame, seq<real>) -> Option<Estimates>, ghost prior: Frame) returns (r: Result<Summary>)
      requires Valid() && Shaped(fitter) && x.Some? && y.Some? && t.Some? && HasDefaults(t.value)
      requires "const" in Names(x.value) && first.index == Names(x.value)
      requires |y.value.values| == x.value.rows && fitter(x.value, y.value.values).Some?
      requires first.tstat == fitter(x.value, y.value.values).value.tstat
      requires |first.b| == |first.bstd| == |first.index|
      requires x.value == WithConst(prior) && t.value == CriticalValues(alfa, prior.rows - |prior.columns|, tppf)
      requires !HasCategory(prior) && Fits(first, fitter)
      modifies this
      ensures Valid() && alfa == old(alfa) && y == old(y)
      ensures r.Success? <==> Eliminates(prior, old(y).value.values, level, alfa, tppf, fitter)
      ensures r.Success? ==> x == Some(Backward(prior, old(y).value.values, level, alfa, tppf, fitter))
      ensures r.Success? ==> b.Some? && b.value.index == Names(x.value)
      ensures r.Success? ==> HasGroup(Names(x.value)) && Fits(r.value, fitter)
      ensures level !in old(t).value ==> r == Failure(MissingLevel(level))
      ensures r.Success? && "const" in Names(prior) ==>
        t.Some? && level in t.value && x.Some? && r.value.index == Names(x.value) &&
        |r.value.tstat| == |r.value.index| &&
        Settled(r.value.index, r.value.tstat, t.value[level])
      decreases Measure(), 1
    {
      if level !in t.value {
        return Failure(MissingLevel(level));
      }
      var k := FirstInsignificant(first.index, first.tstat, t.value[level]);
      if k.Some? {
        r := DropInsignificant(level, first, k.value, show, tppf, fitter, prior);
      } else {
        r := Conclude(level, first, show, tppf, fitter, prior);
      }
    }

    /** Lines 93-98 of `fitsig`: the coefficient `k` of `first`, the first
        droppable one that is insignificant, is dropped from `x`, and
        `fitsig` starts again on what is left. */
    method DropInsignificant(level: real, first: Summary, k: nat, show: real -> string, tppf: (real, int) -> real,
                             fitter: (Frame, seq<real>) -> Option<Estimates>, ghost prior: Frame)
      returns (r: Result<Summary>)
      requires Valid() && Shaped(fitter) && x.Some? && y.Some? && t.Some? && level in t.value
      requires "const" in Names(x.value) && first.index == Names(x.value)
      requires |y.value.values| == x.value.rows && fitter(x.value, y.value.values).Some?
      requires first.tstat == fitter(x.value, y.value.values).value.tstat
      requires x.value == WithConst(prior) && t.value == CriticalValues(alfa, prior.rows - |prior.columns|, tppf)
      requires FirstBelow(first.index, first.tstat, t.value[level], 0) == Some(k)
      requires !HasCategory(prior) && Fits(first, fitter)
      modifies this
      ensures Valid() && alfa == old(alfa) && y == old(y)
      ensures r.Success? <==> Eliminates(prior, old(y).value.values, level, alfa, tppf, fitter)
      ensures r.Success? ==> Fits(r.value, fitter)
      ensures r.Success? ==> x == Some(Backward(prior, old(y).value.values, level, alfa, tppf, fitter))
      ensures r.Success? ==> b.Some? && b.value.index == Names(x.value)
      ensures r.Success? ==> HasGroup(Names(x.value))
      ensures r.Success? ==>
        t.Some? && level in t.value && x.Some? && r.value.index == Names(x.value) &&
        |r.value.tstat| == |r.value.index| &&
        Settled(r.value.index, r.value.tstat, t.value[level])
      decreases Measure(), 0
    {
      CutIsCritical(prior, level, alfa, tppf);
      BackwardDrops(prior, y.value.values, level, alfa, tppf, fitter, t.value[level], k);
      ConstNotEligible();
      DropColumn(first.index[k]);
      r := FitSig(level, show, tppf, fitter);
    }

    /** Lines 100-106 of `fitsig`, reached when every droppable coefficient
        of `first` is significant: the region-group test reaches an unbound
        name if every other coefficient but `const` is insignificant, and
        otherwise the model is fitted once more, on the design `Backward`
        ends with.  When the critical values belong to `x` itself the refit
        gives `first` again, which is settled. */
    method Conclude(level: real, first: Summary, show: real -> string, tppf: (real, int) -> real,
                    fitter: (Frame, seq<real>) -> Option<Estimates>, ghost prior: Frame) returns (r: Result<Summary>)
      requires Valid() && Shaped(fitter) && x.Some? && y.Some? && t.Some? && level in t.value
      requires "const" in Names(x.value) && first.index == Names(x.value)
      requires |y.value.values| == x.value.rows && fitter(x.value, y.value.values).Some?
      requires first.tstat == fitter(x.value, y.value.values).value.tstat
      requires |first.b| == |first.bstd| == |first.index|
      requires x.value == WithConst(prior) && t.value == CriticalValues(alfa, prior.rows - |prior.columns|, tppf)
      requires FirstBelow(first.index, first.tstat, t.value[level], 0).None?
      requires Settled(first.index, first.tstat, t.value[level])
      requires !HasCategory(prior) && Fits(first, fitter)
      modifies this
      ensures Valid() && alfa == old(alfa) && y == old(y)
      ensures GroupInsignificant(first.index, first.b, first.bstd, old(t).value[level]) ==> r == Failure(UnboundName("x"))
      ensures !GroupInsignificant(first.index, first.b, first.bstd, old(t).value[level]) ==> r.Success? && Fits(r.value, fitter)
      ensures r.Success? <==> Eliminates(prior, old(y).value.values, level, alfa, tppf, fitter)
      ensures r.Success? ==> x == old(x) && r.value.index == first.index && r.value.tstat == first.tstat
      ensures r.Success? ==> x == Some(Backward(prior, old(y).value.values, level, alfa, tppf, fitter))
      ensures r.Success? ==> b.Some? && b.value.index == Names(x.value)
      ensures r.Success? ==> HasGroup(Names(x.value))
      ensures r.Success? && "const" in Names(prior) ==>
        t == old(t) && Settled(r.value.index, r.value.tstat, t.value[level])
    {
      CutIsCritical(prior, level, alfa, tppf);
      BackwardStops(prior, y.value.values, level, alfa, tppf, fitter, t.value[level]);
      if GroupInsignificant(first.index, first.b, first.bstd, t.value[level]) {
        return Failure(UnboundName("x"));
      }
      assert HasGroup(first.index);
      PrepareWithoutList(prior, show);
      r := Refit(show, tppf, fitter);
    }

    /** `predict(x, mean, total)` on the given frame or on `self.x`. */
    function Predict(given: Option<Frame>, mean: bool, total: bool): (r: Result<Prediction>)
      requires Valid()
      requires given.Some? ==> WellFormed(given.value)
      reads this
      ensures given.None? && x.None? ==> r == Failure(Unset("x"))
      ensures (given.Some? || x.Some?) && b.None? ==> r == Failure(Unset("b"))
      ensures (given.Some? || x.Some?) && b.Some? ==>
        r == PredictOn(if given.Some? then given.value else x.value, b.value, mean, total)
    {
      var f := if given.Some? then Some(given.value) else x;
      if f.None? then Failure(Unset("x"))
      else if b.None? then Failure(Unset("b"))
      else PredictOn(f.value, b.value, mean, total)
    }

    /** `matOblik`: "<y name> = " and the terms of `b` joined by " + ";
        `fmt` is the locale number formatting. */
    method Equation(fmt: real -> string) returns (r: Result<string>)
      requires Valid()
      ensures b.None? ==> r == Failure(Unset("b"))
      ensures b.Some? && y.None? ==> r == Failure(Unset("y"))
      ensures b.Some? && y.Some? ==> r == Success(y.value.name + " = " + Join(Terms(b.value, fmt), " + "))
    {
      if b.None? {
        return Failure(Unset("b"));
      }
      var coef := b.value;
      var terms: seq<string> := [];
      var j := 0;
      while j < |coef.index|
        invariant 0 <= j <= |coef.index|
        invariant terms == Terms(coef, fmt)[..j]
      {
        if Lower(coef.index[j]) == "const" {
          terms := terms + [fmt(coef.values[j])];
        } else {
          terms := terms + [fmt(coef.values[j]) + " *" + coef.index[j]];
        }
        j := j + 1;
      }
      assert terms == Terms(coef, fmt);
      if y.None? {
        return Failure(Unset("y"));
      }
      return Success(y.value.name + " = " + Join(terms, " + "));
    }
  }
}
