/** Result types shared by every component of the model. */
module Wrappers {
  /** A pointer, a map lookup or an optional setting. */
  datatype Option<+T> = None | Some(value: T)

  /** What a Go call can end in: a value, a returned error, or a run-time panic. */
  datatype Outcome<+T> = Ok(value: T) | Error | Panic {
    predicate IsFailure() {
      !Ok?
    }

    function PropagateFailure<U>(): Outcome<U>
      requires IsFailure()
    {
      if Error? then Outcome<U>.Error else Outcome<U>.Panic
    }

    function Extract(): T
      requires !IsFailure()
    {
      value
    }
  }
}
