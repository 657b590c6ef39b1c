/** Optional values and success-or-error results, shared by every module of the model. */
module Wrappers {

  /** A value that may be absent: an unset JSON field, a nullable column, a missing header. */
  datatype Option<+T> = None | Some(value: T)

  /** The outcome of a handler: the value it responds with, or the error it reports. */
  datatype Result<+T, +E> = Ok(value: T) | Err(error: E)
}
