/** Optional values and results that carry an error message. */
module Wrappers {

  /** A value that may be absent (`null` or `undefined` on the other side). */
  datatype Option<+T> = None | Some(value: T)

  /** The outcome of an operation that either returns a value or throws an `Error(message)`. */
  datatype Result<+T> = Ok(value: T) | Err(message: string)
}
