/** Small failure-carrying datatypes shared by the whole model. */
module Wrappers {

  datatype Option<+T> = None | Some(value: T)

  /** A value thrown by JavaScript code: either an `Error` instance, which
      carries a message, or any other value, which does not. */
  datatype Failure = ErrorValue(message: string) | NonErrorValue

  datatype Result<+T> = Success(value: T) | Failed(failure: Failure)

  /** The outcome of an engine step that yields nothing. */
  datatype Outcome = Pass | Fail(failure: Failure)

  /** `err instanceof Error ? err.message : fallback`. */
  function MessageOr(f: Failure, fallback: string): (m: string)
    ensures f.ErrorValue? ==> m == f.message
    ensures f.NonErrorValue? ==> m == fallback
  {
    match f
    case ErrorValue(msg) => msg
    case NonErrorValue => fallback
  }
}
