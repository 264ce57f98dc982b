/** Optional values and results, as the handler and the page use them. */
module Wrappers {

  /** A value that may be absent: an absent or null JSON field, a missing
      environment variable, a timestamp that does not parse. */
  datatype Option<+T> = None | Some(value: T)

  /** The outcome of a check that either passes with a value or fails with a reason. */
  datatype Result<+T, +E> = Ok(value: T) | Err(error: E)
}
