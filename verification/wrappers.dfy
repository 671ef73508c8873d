/** Failure-compatible wrappers shared by every module of the model. */
module Wrappers {

  /** A value that may be missing; stands for a Java reference that may be null. */
  datatype Option<+T> = None | Some(value: T)

  /** Either a value or an error; stands for a call that may throw. */
  datatype Result<+R, +E> = Success(value: R) | Failure(error: E)
}
