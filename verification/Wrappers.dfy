/** Values that may be missing, operations that may refuse, and steps of a run. */
module Wrappers {

  datatype Option<+T> = None | Some(value: T)

  datatype Result<+T, +E> = Ok(value: T) | Err(error: E)

  /** A truth value as a number, for counting. */
  function One(b: bool): nat { if b then 1 else 0 }

  /** The list without any `x`. */
  function Without<T(==, !new)>(list: seq<T>, x: T): (r: seq<T>)
    ensures forall y :: y in r <==> y in list && y != x
  {
    if list == [] then []
    else if list[0] == x then Without(list[1..], x)
    else [list[0]] + Without(list[1..], x)
  }

  /** Something that happens at `now`. */
  datatype Step<+A> = Step(action: A, now: nat)

  /** The clock before the `i`-th step. */
  function ClockBefore<A>(steps: seq<Step<A>>, i: nat): nat
    requires i <= |steps|
  {
    if i == 0 then 0 else steps[i - 1].now
  }
}
