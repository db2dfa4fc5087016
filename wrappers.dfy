/** Option and Result, the failure-carrying values used for Ruby's nil and raise. */
module Wrappers {

  datatype Option<+T> = None | Some(value: T)

  /** A value, or the error that the Ruby code would raise instead of returning. */
  datatype Result<+T, +E> = Success(value: T) | Failure(error: E)
}
