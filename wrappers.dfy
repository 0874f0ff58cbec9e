/** Option and Result, shared by the other modules. */
module Wrappers {

  /** A value that may be absent (a Java reference that may be null). */
  datatype Option<+T> = None | Some(value: T)

  /** Either a value or the error that replaced it (a returned value or a thrown exception). */
  datatype Result<+R, +E> = Success(value: R) | Failure(error: E)
}
