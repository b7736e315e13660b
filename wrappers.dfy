/** Failure-carrying result types used throughout the model. */
module Wrappers {

  /** A value that may be absent: the model of a Go pointer field that may be nil. */
  datatype Option<+T> = None | Some(value: T)

  /** Either a value or an error: the model of a Go `(T, error)` return. */
  datatype Result<+R, +E> = Success(value: R) | Failure(error: E)

  /** An error or nothing: the model of a Go function returning only `error`. */
  datatype Outcome<+E> = Pass | Fail(error: E)
}
