/** Optional values and success/failure results shared by every module. */
module Outcomes {

  /** A value that may be absent (Python `None`, JavaScript `null`). */
  datatype Option<+T> = None | Some(value: T)

  /** The outcome of a validator or handler: a value, or the error it raised. */
  datatype Result<+T, +E> = Ok(value: T) | Err(error: E)
}
