/** Results of Go functions that return a value and an `error`, and of code that may
    also stop with a run-time panic (an index out of range). */
module Outcomes {

  datatype Result<T, E> = Ok(value: T) | Err(error: E)

  /** What a Go call ends with: a value, an error, or a panic at the given line of main.go. */
  datatype Outcome<T, E> = Returned(value: T) | Failed(error: E) | Panicked(line: nat)

  /** A call that cannot panic, seen as an outcome. */
  function Lift<T, E>(r: Result<T, E>): (o: Outcome<T, E>)
    ensures !o.Panicked?
    ensures r.Ok? <==> o.Returned?
    ensures r.Ok? ==> o.value == r.value
    ensures r.Err? ==> o.error == r.error
  {
    match r
    case Ok(v) => Returned(v)
    case Err(e) => Failed(e)
  }
}
