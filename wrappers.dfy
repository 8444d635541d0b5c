/** Failure-compatible result types shared by every module of the model. */
module Wrappers {

  /** A value that may be absent: Go's nil pointer, nil slice or zero time. */
  datatype Option<+T> = None | Some(value: T)

  /** A value or an error, for Go functions returning `(T, error)`. */
  datatype Result<+T, +E> = Ok(value: T) | Err(error: E)

  /** Success or an error, for Go functions returning only `error`. */
  datatype Outcome<+E> = Pass | Fail(error: E)
}
