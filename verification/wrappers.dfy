/** Optional values and fallible results, standing in for Java's nullable
    references and checked exceptions. */
module Wrappers {

  /** A value that may be absent: `None` plays the role of Java's `null`. */
  datatype Option<+T> = None | Some(value: T)

  /** The outcome of an operation that may throw: `Failure` carries the error. */
  datatype Result<+R, +E> = Success(value: R) | Failure(error: E)
}
