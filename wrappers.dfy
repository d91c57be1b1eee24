/** Option and Result values used across the model in place of null and thrown errors. */
module Wrappers {

  /** A value that may be absent (a TypeScript `T | null` or `T | undefined`). */
  datatype Option<+T> = None | Some(value: T)

  /** Either a value or an error message (a call that may throw). */
  datatype Result<+R, +E> = Success(value: R) | Failure(error: E)
}
