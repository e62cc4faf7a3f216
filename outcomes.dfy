/** Failure-carrying return values, standing in for Go's `(value, error)` pairs. */
module Outcomes {

  datatype Option<+T> = None | Some(value: T)

  /** A value or an error: Go's `(T, error)` result. */
  datatype Result<+T, +E> = Ok(value: T) | Err(error: E)

  /** Success or an error: Go's bare `error` result (nil is `Pass`). */
  datatype Outcome<+E> = Pass | Fail(error: E)
}
