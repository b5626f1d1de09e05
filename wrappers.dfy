/** Optional values as the TypeScript sources use them. */
module Wrappers {

  /** A value that may be missing (`undefined` in the sources). */
  datatype Option<+T> = None | Some(value: T)

  /** A property declared `?: T | null`: missing (`undefined`), `null`, or holding a value. */
  datatype Nullish<+T> = Absent | Null | Present(value: T)

  /** The success or error outcome of an operation that can throw or reply with an error. */
  datatype Result<+T, +E> = Ok(value: T) | Err(error: E)
}
