/**
 * Optional values, the model's stand-in for a .NET reference that may be null, and
 * results, its stand-in for a call that may throw.
 */
module Wrappers {

  datatype Option<+T> = None | Some(value: T) {

    /** The value, or `default` when there is none (C#'s `??`). */
    function GetOr(default: T): T
    {
      match this
      case Some(v) => v
      case None => default
    }
  }

  /** The value of an operation that either completes or throws an exception of type `E`. */
  datatype Result<+T, +E> = Success(value: T) | Failure(error: E)
}
