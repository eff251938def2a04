/** Optional values and error results, standing for Java's nullable references and thrown exceptions. */
module Wrappers {

  /** A value that may be absent (a Java reference that may be null). */
  datatype Option<+T> = None | Some(value: T)

  /** The outcome of an operation that may throw: either a value or the exception it throws. */
  datatype Result<+T, +E> = Success(value: T) | Failure(error: E)
}
