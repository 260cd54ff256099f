/** Failure-carrying values used in place of the exceptions of the tracker. */
module Wrappers {

  /** A value that may be absent (a NULL column, a lookup that matched nothing). */
  datatype Option<+T> = None | Some(value: T)

  /** A value or the error that replaced it. */
  datatype Result<+T, +E> = Success(value: T) | Failure(error: E)
}
