/** Failure-compatible wrappers shared by the dashboard modules. */
module Wrappers {

  /** The outcome of an operation that can raise instead of returning. */
  datatype Result<+R, +E> = Success(value: R) | Failure(error: E)
}
