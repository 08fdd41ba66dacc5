/** Normalisation of the significance levels `alfa` that both the OLS helper
    and the bootstrap take at construction. */
module Levels {
  import opened Outcomes
  import opened Stats

  /** How a caller passes `alfa`: not at all, as one number, or as a list. */
  datatype LevelArg = Default | Single(level: real) | Many(levels: seq<real>)

  /** The levels every object starts from: 10%, 5% and 1%, in this order. */
  const Defaults: seq<real> := [0.1, 0.05, 0.01]

  function Supplied(arg: LevelArg): seq<real>
  {
    match arg
    case Default => []
    case Single(a) => [a]
    case Many(levels) => levels
  }

  predicate InRange(a: real)
  {
    0.0 <= a <= 1.0
  }

  predicate AllInRange(levels: seq<real>)
  {
    forall i :: 0 <= i < |levels| ==> InRange(levels[i])
  }

  /** The constructor's `alfa` handling: with no argument the defaults as
      they are; otherwise every supplied level must lie in [0, 1] (the bounds
      themselves are accepted) and the result is `sorted(set(defaults +
      supplied))`. */
  function Normalise(arg: LevelArg): (r: Result<seq<real>>)
    ensures r.Failure? <==> exists a :: a in Supplied(arg) && !InRange(a)
    ensures r.Failure? ==> r.fault == LevelOutOfRange
    ensures r.Success? && arg.Default? ==> r.value == Defaults
    ensures r.Success? && !arg.Default? ==> StrictlyAscending(r.value)
    ensures r.Success? && !arg.Default? ==>
      forall a :: a in r.value <==> a in Defaults || a in Supplied(arg)
    ensures r.Success? ==> AllInRange(r.value) && forall d :: d in Defaults ==> d in r.value
  {
    match arg
    case Default => Success(Defaults)
    case Single(a) =>
      if !InRange(a) then Failure(LevelOutOfRange)
      else Success(SortedUnique(Defaults + [a]))
    case Many(levels) =>
      if !AllInRange(levels) then Failure(LevelOutOfRange)
      else Success(SortedUnique(Defaults + levels))
  }
}
