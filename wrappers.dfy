/** Optional values and results with an error, the shapes every parser and
    every request of the client returns. */
module Wrappers {

  /** A value that may be absent (Python's `X | None`). */
  datatype Option<+T> = None | Some(value: T)

  /** Either a value or the exception the operation raised. */
  datatype Result<+T, +E> = Ok(value: T) | Err(error: E)
}
