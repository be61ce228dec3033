/** Failure-carrying values shared by the whole model. */
module Wrappers {

  /** A value that may be absent: Java's `null` reference is `None`. */
  datatype Option<+T> = None | Some(value: T)

  /** The outcome of a step that may throw: `Failure` carries the exception's message. */
  datatype Result<+R, +E> = Success(value: R) | Failure(error: E)
}
