/** Optional values and success/failure results shared by the backend and the client models. */
module Wrappers {

  /** A value that may be absent: Python's `Optional[...]`, TypeScript's `T | null`. */
  datatype Option<+T> = None | Some(value: T)

  /** The outcome of an operation that can fail with an error value. */
  datatype Result<+T, +E> = Ok(value: T) | Err(error: E)
}
