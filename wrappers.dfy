/** Option and Result values standing in for Java's `null` and for thrown exceptions. */
module Wrappers {

  /** A value that may be absent (Java `null`). */
  datatype Option<+T> = None | Some(value: T)

  /** Either a normal result or the exception that was thrown instead. */
  datatype Result<+R, +E> = Success(value: R) | Failure(error: E)
}
