/** Failure-compatible wrappers: a C# reference that may be null is an Option,
    an operation that may throw is a Result or an Outcome. */
module Wrappers {

  datatype Option<+T> = None | Some(value: T) {
    /** The C# `x ?? d` operator. */
    function GetOr(default: T): T {
      match this
      case Some(v) => v
      case None => default
    }
  }

  datatype Result<+T, +E> = Success(value: T) | Failure(error: E)

  /** The effect of a handler that may throw: the exception escapes as a `Fault`. */
  datatype Outcome = Pass | Fault(exception: string)
}
