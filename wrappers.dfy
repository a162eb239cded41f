/** Failure-carrying values shared by the model: a Go `(T, error)` pair
    becomes a `Result<T>`, a bare `error` that may be nil an `Outcome`. */
module Wrappers {

  datatype Option<+T> = None | Some(value: T)

  /** `Err` carries the text of the Go error (`err.Error()`). */
  datatype Result<+T> = Ok(value: T) | Err(error: string)

  /** A Go `error` return: `Pass` is nil. */
  datatype Outcome = Pass | Fail(error: string)
}
