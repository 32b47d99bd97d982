/** Failure-compatible wrappers shared by every module of the model.
    A Python exception becomes a `Raised` value carrying the exception
    class name and its message. */
module Wrappers {

  datatype Option<+T> = None | Some(value: T) {
    function GetOr(default: T): T
    {
      match this
      case Some(v) => v
      case None => default
    }
  }

  /** A raised Python exception: its class name and message. */
  datatype Exception = Raised(kind: string, message: string)

  datatype Result<+T> = Success(value: T) | Failure(error: Exception) {
    predicate IsFailure() { Failure? }

    function PropagateFailure<U>(): Result<U>
      requires Failure?
    {
      Failure(error)
    }

    function Extract(): T
      requires Success?
    {
      value
    }
  }

  /** The outcome of a statement sequence that returns nothing: it either
      completes or raises. */
  datatype Outcome = Pass | Fail(error: Exception) {
    predicate IsFailure() { Fail? }

    function PropagateFailure(): Outcome
      requires Fail?
    {
      this
    }
  }
}
