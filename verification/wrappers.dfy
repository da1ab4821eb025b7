/** Failure-compatible wrappers shared by every module of the gateway model. */
module Wrappers {

  /** A value that may be absent: the model's stand-in for a Java reference that may be null. */
  datatype Option<+T> = None | Some(value: T)

  /** The outcome of an operation that either produces a value or fails with a reason. */
  datatype Result<+T, +E> = Success(value: T) | Failure(error: E)
}
