/** Optional values and results with an error, used for the absent database
    rows and the exceptions of the modelled code. */
module Wrappers {

  /** A value that may be absent, as Python's `None`. */
  datatype Option<+T> = None | Some(value: T)

  /** The value of a computation or the error it raised. */
  datatype Result<+T, +E> = Ok(value: T) | Err(error: E)
}
