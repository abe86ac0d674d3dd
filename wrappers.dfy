/** Option and Result, the failure-carrying values used across the model. */
module Wrappers {

  datatype Option<+T> = None | Some(value: T)

  /** A computation that either yields a value or fails the way the
      Python code raises an exception. */
  datatype Result<+R, +E> = Success(value: R) | Failure(error: E)
}
