/** Result types shared by the models of the coordination code. */
module Wrappers {

  /** A column or dictionary entry that may be missing. */
  datatype Option<+T> = None | Some(value: T)

  /** The answer of an operation that either commits a value or refuses and changes nothing. */
  datatype Result<+T> = Success(value: T) | Rejected {
    predicate IsFailure() {
      Rejected?
    }

    function PropagateFailure<U>(): Result<U>
      requires Rejected?
    {
      Rejected
    }

    function Extract(): T
      requires Success?
    {
      value
    }
  }

  /** How a call of a process that can die ends: it returns, it raises, or the process is gone. */
  datatype Outcome<+T> = Done(value: T) | Raised | Died {
    predicate IsFailure() {
      !Done?
    }

    function PropagateFailure<U>(): Outcome<U>
      requires !Done?
    {
      if Raised? then Raised else Died
    }

    function Extract(): T
      requires Done?
    {
      value
    }
  }
}
