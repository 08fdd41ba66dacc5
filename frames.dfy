/** A pandas DataFrame of numeric columns, as the OLS helper and the survey
    estimators use it: a row count and an ordered list of labelled columns. */
module Frames {
  import opened Outcomes
  import opened Stats

  datatype Column = Column(name: string, cells: seq<real>)

  datatype Frame = Frame(rows: nat, columns: seq<Column>)

  /** A pandas Series: a label and its values. */
  datatype Series = Series(name: string, values: seq<real>)

  /** Every column has one cell per row. */
  predicate WellFormed(f: Frame)
  {
    forall j :: 0 <= j < |f.columns| ==> |f.columns[j].cells| == f.rows
  }

  /** `df.columns`. */
  function Names(f: Frame): (r: seq<string>)
    ensures |r| == |f.columns|
    ensures forall j :: 0 <= j < |f.columns| ==> r[j] == f.columns[j].name
  {
    seq(|f.columns|, j requires 0 <= j < |f.columns| => f.columns[j].name)
  }

  /** `df[name]`: the first column with that label; a missing label raises. */
  function Lookup(f: Frame, name: string): (r: Result<seq<real>>)
    ensures r.Failure? <==> name !in Names(f)
    ensures r.Failure? ==> r.fault == MissingColumn(name)
    ensures r.Success? ==> exists j :: 0 <= j < |f.columns| && f.columns[j] == Column(name, r.value)
  {
    LookupIn(f.columns, name)
  }

  function LookupIn(cs: seq<Column>, name: string): (r: Result<seq<real>>)
    ensures r.Failure? <==> forall j :: 0 <= j < |cs| ==> cs[j].name != name
    ensures r.Failure? ==> r.fault == MissingColumn(name)
    ensures r.Success? ==> exists j :: 0 <= j < |cs| && cs[j] == Column(name, r.value)
  {
    if |cs| == 0 then Failure(MissingColumn(name))
    else if cs[0].name == name then Success(cs[0].cells)
    else
      var r := LookupIn(cs[1..], name);
      if r.Success? then
        var j :| 0 <= j < |cs| - 1 && cs[1..][j] == Column(name, r.value);
        assert cs[j + 1] == Column(name, r.value);
        r
      else r
  }

  /** The columns of `cs` whose label differs from `name`, in order. */
  function Without(cs: seq<Column>, name: string): (r: seq<Column>)
    ensures forall c :: c in r <==> c in cs && c.name != name
    ensures |r| <= |cs|
    ensures (exists j :: 0 <= j < |cs| && cs[j].name == name) ==> |r| < |cs|
  {
    if |cs| == 0 then []
    else if cs[0].name == name then Without(cs[1..], name)
    else
      assert forall j :: 0 < j < |cs| && cs[j].name == name ==> cs[1..][j - 1].name == name;
      [cs[0]] + Without(cs[1..], name)
  }

  /** `df.drop(name, axis=1)`: every column with that label goes; a missing
      label raises. */
  function Drop(f: Frame, name: string): (r: Result<Frame>)
    ensures r.Failure? <==> name !in Names(f)
    ensures r.Success? ==> r.value == Frame(f.rows, Without(f.columns, name))
    ensures r.Success? ==> |r.value.columns| < |f.columns|
    ensures r.Success? && WellFormed(f) ==> WellFormed(r.value)
  {
    if name !in Names(f) then Failure(MissingColumn(name))
    else
      var j :| 0 <= j < |f.columns| && Names(f)[j] == name;
      var g := Frame(f.rows, Without(f.columns, name));
      assert forall k :: 0 <= k < |g.columns| ==> g.columns[k] in f.columns;
      Success(g)
  }

  /** The labels left by `df.drop(name, axis=1)` are the other labels. */
  lemma DropNames(f: Frame, name: string)
    requires name in Names(f)
    ensures forall nm :: nm in Names(Drop(f, name).value) <==> nm in Names(f) && nm != name
  {
    var g := Drop(f, name).value;
    forall nm | nm in Names(g)
      ensures nm in Names(f) && nm != name
    {
      var i :| 0 <= i < |g.columns| && Names(g)[i] == nm;
      assert g.columns[i] in f.columns;
      var j :| 0 <= j < |f.columns| && f.columns[j] == g.columns[i];
      assert Names(f)[j] == nm;
    }
    forall nm | nm in Names(f) && nm != name
      ensures nm in Names(g)
    {
      var j :| 0 <= j < |f.columns| && Names(f)[j] == nm;
      assert f.columns[j] in g.columns;
      var i :| 0 <= i < |g.columns| && g.columns[i] == f.columns[j];
      assert Names(g)[i] == nm;
    }
  }

  lemma DropKeepsOthers(f: Frame, name: string, other: string)
    requires name in Names(f) && other in Names(f) && other != name
    ensures other in Names(Drop(f, name).value)
  {
    var j :| 0 <= j < |f.columns| && Names(f)[j] == other;
    var g := Drop(f, name).value;
    assert f.columns[j] in g.columns;
    var i :| 0 <= i < |g.columns| && g.columns[i] == f.columns[j];
    assert Names(g)[i] == other;
  }

  /** `df[name] = cells`: replaces the column with that label where it
      stands, or appends a new last column. */
  function Assign(f: Frame, name: string, cells: seq<real>): (r: Frame)
    ensures r.rows == f.rows
    ensures name in Names(f) ==> |r.columns| == |f.columns|
    ensures name in Names(f) ==> forall j :: 0 <= j < |f.columns| ==>
      r.columns[j] == if f.columns[j].name == name then Column(name, cells) else f.columns[j]
    ensures name !in Names(f) ==> r.columns == f.columns + [Column(name, cells)]
    ensures WellFormed(f) && |cells| == f.rows ==> WellFormed(r)
  {
    if name in Names(f) then
      Frame(f.rows, seq(|f.columns|, j requires 0 <= j < |f.columns| =>
        if f.columns[j].name == name then Column(name, cells) else f.columns[j]))
    else Frame(f.rows, f.columns + [Column(name, cells)])
  }

  /** `df.insert(0, name, cells)`. */
  function InsertFirst(f: Frame, name: string, cells: seq<real>): (r: Frame)
    ensures r == Frame(f.rows, [Column(name, cells)] + f.columns)
    ensures WellFormed(f) && |cells| == f.rows ==> WellFormed(r)
  {
    Frame(f.rows, [Column(name, cells)] + f.columns)
  }

  /** A looked-up column of a well-formed frame has one cell per row. */
  lemma LookupLength(f: Frame, name: string)
    requires WellFormed(f) && Lookup(f, name).Success?
    ensures |Lookup(f, name).value| == f.rows
  {
    var j :| 0 <= j < |f.columns| && f.columns[j] == Column(name, Lookup(f, name).value);
  }

  /** `s.loc[rows]`: the values at the given positions, in that order. */
  function Pick(s: seq<real>, rows: seq<nat>): (r: seq<real>)
    requires forall k :: 0 <= k < |rows| ==> rows[k] < |s|
    ensures |r| == |rows| && forall k :: 0 <= k < |rows| ==> r[k] == s[rows[k]]
  {
    seq(|rows|, k requires 0 <= k < |rows| => s[rows[k]])
  }

  /** `df.loc[rows]`: the given rows of every column, the labels unchanged. */
  function Take(f: Frame, rows: seq<nat>): (r: Frame)
    requires WellFormed(f) && forall k :: 0 <= k < |rows| ==> rows[k] < f.rows
    ensures WellFormed(r) && r.rows == |rows| && Names(r) == Names(f)
    ensures |r.columns| == |f.columns|
    ensures forall j :: 0 <= j < |f.columns| ==>
      r.columns[j] == Column(f.columns[j].name, Pick(f.columns[j].cells, rows))
  {
    var r := Frame(|rows|, seq(|f.columns|, j requires 0 <= j < |f.columns| =>
      Column(f.columns[j].name, Pick(f.columns[j].cells, rows))));
    assert forall j :: 0 <= j < |f.columns| ==> Names(r)[j] == Names(f)[j];
    r
  }

  /** `df.loc[:, names]`: the columns with those labels, in that order; a
      missing label raises. */
  function Select(f: Frame, names: seq<string>): (r: Result<Frame>)
    ensures r.Failure? <==> exists k :: 0 <= k < |names| && names[k] !in Names(f)
    ensures r.Failure? ==> exists k :: 0 <= k < |names| && r.fault == MissingColumn(names[k])
    ensures r.Success? ==> r.value.rows == f.rows && Names(r.value) == names
    ensures r.Success? ==> forall k :: 0 <= k < |names| ==>
      Lookup(f, names[k]) == Success(r.value.columns[k].cells)
    ensures r.Success? && WellFormed(f) ==> WellFormed(r.value)
  {
    var found := Collect(seq(|names|, k requires 0 <= k < |names| => Lookup(f, names[k])));
    if found.Failure? then
      Failure(found.fault)
    else
      var g := Frame(f.rows, seq(|names|, k requires 0 <= k < |names| => Column(names[k], found.value[k])));
      assert forall k :: 0 <= k < |names| ==> Names(g)[k] == names[k];
      assert WellFormed(f) ==> forall k :: 0 <= k < |names| ==> |g.columns[k].cells| == f.rows by {
        if WellFormed(f) {
          forall k | 0 <= k < |names| ensures |g.columns[k].cells| == f.rows {
            LookupLength(f, names[k]);
          }
        }
      }
      Success(g)
  }

  /** The values of row `i`, one per column. */
  function Row(f: Frame, i: nat): (r: seq<real>)
    requires WellFormed(f) && i < f.rows
    ensures |r| == |f.columns| && forall j :: 0 <= j < |f.columns| ==> r[j] == f.columns[j].cells[i]
  {
    seq(|f.columns|, j requires 0 <= j < |f.columns| => f.columns[j].cells[i])
  }

  /** `df @ b`: each row's dot product with the coefficients. */
  function RowDots(f: Frame, b: seq<real>): (r: seq<real>)
    requires WellFormed(f) && |b| == |f.columns|
    ensures |r| == f.rows && forall i :: 0 <= i < f.rows ==> r[i] == Dot(Row(f, i), b)
  {
    seq(f.rows, i requires 0 <= i < f.rows => Dot(Row(f, i), b))
  }

  /** `df.mean()`: the mean of every column. */
  function ColumnMeans(f: Frame): (r: seq<real>)
    requires WellFormed(f) && f.rows > 0
    ensures |r| == |f.columns| && forall j :: 0 <= j < |f.columns| ==> r[j] == Mean(f.columns[j].cells)
  {
    seq(|f.columns|, j requires 0 <= j < |f.columns| => Mean(f.columns[j].cells))
  }

  /** The sum of every column. */
  function ColumnSums(f: Frame): (r: seq<real>)
    ensures |r| == |f.columns| && forall j :: 0 <= j < |f.columns| ==> r[j] == Sum(f.columns[j].cells)
  {
    seq(|f.columns|, j requires 0 <= j < |f.columns| => Sum(f.columns[j].cells))
  }

  /** The row dot products split into the first column's share and the
      rest of the frame's. */
  lemma RowDotsSplit(f: Frame, b: seq<real>)
    requires WellFormed(f) && |b| == |f.columns| > 0
    ensures RowDots(f, b) ==
      Plus(Scale(b[0], f.columns[0].cells), RowDots(Frame(f.rows, f.columns[1..]), b[1..]))
  {
    var g := Frame(f.rows, f.columns[1..]);
    forall i | 0 <= i < f.rows
      ensures RowDots(f, b)[i] == Plus(Scale(b[0], f.columns[0].cells), RowDots(g, b[1..]))[i]
    {
      assert Row(f, i)[1..] == Row(g, i);
    }
  }

  /** Summing the row predictions is summing each column first and then
      weighting the column sums by the coefficients. */
  lemma {:induction false} SumRowDots(f: Frame, b: seq<real>)
    requires WellFormed(f) && |b| == |f.columns|
    ensures Sum(RowDots(f, b)) == Dot(ColumnSums(f), b)
    decreases |f.columns|
  {
    if |f.columns| == 0 {
      assert RowDots(f, b) == Constant(0.0, f.rows);
      SumConstant(0.0, f.rows);
    } else {
      var g := Frame(f.rows, f.columns[1..]);
      var c := f.columns[0].cells;
      RowDotsSplit(f, b);
      SumRowDots(g, b[1..]);
      SumPlus(Scale(b[0], c), RowDots(g, b[1..]));
      SumScale(b[0], c);
      assert ColumnSums(f)[1..] == ColumnSums(g);
    }
  }

  /** The mean prediction equals the prediction at the column means. */
  lemma MeanRowDots(f: Frame, b: seq<real>)
    requires WellFormed(f) && |b| == |f.columns| && f.rows > 0
    ensures Mean(RowDots(f, b)) == Dot(ColumnMeans(f), b)
  {
    SumRowDots(f, b);
    DotDivided(ColumnMeans(f), ColumnSums(f), b, f.rows as real);
  }
}
