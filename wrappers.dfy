/** Failure-carrying results shared by the modules of this model. */
module Wrappers {

  /** A value that may be absent: the model's stand-in for a Java `null` reference. */
  datatype Option<+T> = None | Some(value: T)

  /** The outcome of an operation that either produces a value or throws. */
  datatype Result<+R, +E> = Success(value: R) | Failure(error: E)
}
