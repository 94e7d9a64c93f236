/** Option and Result: the model's stand-ins for C# null and for thrown exceptions. */
module Wrappers {

  /** A value that may be null. */
  datatype Option<+T> = None | Some(value: T)

  /** A computation that returns a value or throws. */
  datatype Result<+R, +E> = Success(value: R) | Failure(error: E)
}
