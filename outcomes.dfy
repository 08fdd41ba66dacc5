/** Success/failure values shared by every module of the model.

    The Python classes raise exceptions, read attributes that an earlier stage
    may not have set, and sometimes carry a NaN or an infinity forward instead
    of raising.  The model names each of these outcomes as a `Fault`.
 */
module Outcomes {

  datatype Option<+T> = None | Some(value: T)

  datatype Result<+T> = Success(value: T) | Failure(fault: Fault)

  datatype Fault =
    | LevelOutOfRange            // ValueError: a significance level outside [0, 1]
    | Unset(field: string)       // AttributeError/TypeError: a stage used a field an earlier stage sets
    | MissingColumn(column: string)  // KeyError on a column label
    | MissingLevel(level: real)      // KeyError on the critical-value dictionary
    | Unaligned                  // ValueError: operands of `@` have different labels
    | Singular                   // LinAlgError: X'X cannot be inverted
    | NotIterable                // TypeError: iterating over `None`
    | UnboundName(name: string)  // NameError
    | SampleTooLarge             // ValueError: a sample without replacement larger than its population
    | NegativeSize               // ValueError: a negative number of rows requested
    | NotSeries                  // AttributeError: a plain list has no `mean` or `quantile`
    | NoneAttribute              // AttributeError: an attribute looked up on `None`
    | QuantileOutOfRange         // ValueError: a quantile outside [0, 1]
    | ZeroDivision               // ZeroDivisionError on Python integers
    | NotANumber                 // ValueError: int() of a NaN
    | NonFinite                  // a float result the source leaves as NaN or an infinity

  /** Per-item results gathered in order: every value when nothing failed,
      otherwise the fault of the first item that failed. */
  function Collect<T>(rs: seq<Result<T>>): (r: Result<seq<T>>)
    ensures r.Success? <==> forall i :: 0 <= i < |rs| ==> rs[i].Success?
    ensures r.Success? ==> |r.value| == |rs| && forall i :: 0 <= i < |rs| ==> r.value[i] == rs[i].value
    ensures r.Failure? ==>
      exists i :: 0 <= i < |rs| && rs[i] == Failure(r.fault) && forall j :: 0 <= j < i ==> rs[j].Success?
  {
    if |rs| == 0 then Success([])
    else if rs[0].Failure? then Failure(rs[0].fault)
    else
      var rest := Collect(rs[1..]);
      if rest.Failure? then
        var i :| 0 <= i < |rs[1..]| && rs[1..][i] == Failure(rest.fault) &&
          forall j :: 0 <= j < i ==> rs[1..][j].Success?;
        assert forall j :: 1 <= j <= i ==> rs[j] == rs[1..][j - 1];
        rest
      else Success([rs[0].value] + rest.value)
  }

  /** A loop that appends each item's value in order and stops at the first
      failure. */
  method CollectInOrder<T>(rs: seq<Result<T>>) returns (r: Result<seq<T>>)
    ensures r == Collect(rs)
  {
    var done: seq<T> := [];
    var i := 0;
    while i < |rs|
      invariant 0 <= i <= |rs| && |done| == i
      invariant forall j :: 0 <= j < i ==> rs[j] == Success(done[j])
    {
      if rs[i].Failure? {
        FirstFailure(rs, i);
        return Failure(rs[i].fault);
      }
      done := done + [rs[i].value];
      i := i + 1;
    }
    assert Collect(rs).value == done;
    return Success(done);
  }

  /** The failure that `Collect` reports is the first one. */
  lemma FirstFailure<T>(rs: seq<Result<T>>, i: nat)
    requires i < |rs| && rs[i].Failure? && forall j :: 0 <= j < i ==> rs[j].Success?
    ensures Collect(rs) == Failure(rs[i].fault)
  {
    var k :| 0 <= k < |rs| && rs[k] == Failure(Collect(rs).fault) && forall j :: 0 <= j < k ==> rs[j].Success?;
    assert k == i;
  }
}
