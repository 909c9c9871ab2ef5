/** Optional values and results with an error, used by every other module. */
module Wrappers {

  /** A value that may be absent: a field missing from a request body, a search that found nothing. */
  datatype Option<+T> = None | Some(value: T)

  /** The outcome of an operation that can fail with an error of type E. */
  datatype Result<+T, +E> = Ok(value: T) | Err(error: E)
}
