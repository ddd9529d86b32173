/** Option and Result: the model's stand-ins for C# null and for thrown exceptions. */
module Wrappers {

  /** A value that may be absent, as a C# nullable reference may be null. */
  datatype Option<+T> = None | Some(value: T) {
    /** The value, or `default` when absent (C#'s `??` operator). */
    function GetOr(default: T): T {
      match this
      case Some(v) => v
      case None => default
    }
  }

  /** A computed value or the error an operation would throw. */
  datatype Result<+R, +E> = Success(value: R) | Failure(error: E)
}
