/** Optional and failure-carrying values shared by the other modules. */
module Wrappers {

  /** A value that may be absent: a JSON field that is missing, `undefined` or `null`. */
  datatype Option<+T> = None | Some(value: T)

  /** The outcome of a step that can fail with an error value. */
  datatype Result<+T, +E> = Ok(value: T) | Err(error: E)
}
