/**
  Failure-carrying wrappers used throughout the model: a nullable reference
  becomes an Option, a call that may throw becomes a Result, Outcome or
  Invocation.
*/
module Wrappers {

  /** A C# reference that may be null. */
  datatype Option<+T> = None | Some(value: T) {
    function GetOr(default: T): T {
      match this
      case Some(v) => v
      case None => default
    }
  }

  /** A computation that either returns a value or throws. */
  datatype Result<+T, +E> = Success(value: T) | Failure(error: E)

  /** A void computation that either completes or throws. */
  datatype Outcome<+E> = Pass | Fail(error: E)

  /**
    The observable result of invoking a user-supplied delegate: it returns
    a value or it throws. What the delegate does besides is outside the model.
  */
  datatype Invocation<+T> = Returned(value: T) | Threw
}
