/** Failure-carrying results: the driver's `(value, error)` and bare `error` returns. */
module Wrappers {

  /** A value, or the error that prevented it. */
  datatype Result<+T, +E> = Success(value: T) | Failure(error: E)

  /** The outcome of an operation that returns no value. */
  datatype Outcome<+E> = Pass | Fail(error: E)
}
