/** Failure-carrying values shared by the model: Go's `(T, error)` and `error` returns. */
module Wrappers {

  /** A value that may be absent. */
  datatype Option<+T> = None | Some(value: T)

  /** Go's `(T, error)`: either a value or the error's message. */
  datatype Result<+T> = Success(value: T) | Failure(error: string)

  /** Go's bare `error` return: nil (Pass) or the error's message. */
  datatype Outcome = Pass | Fail(error: string)
}
