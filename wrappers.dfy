/** Optional values and results with an error, as the service and the router use them. */
module Wrappers {

  /** Python's `Optional[T]`: `None` or a value. */
  datatype Option<+T> = None | Some(value: T)

  /** The outcome of an operation that may raise: a value, or the exception it raised. */
  datatype Result<+T, +E> = Ok(value: T) | Err(error: E)
}
