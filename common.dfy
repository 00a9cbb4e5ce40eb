/** Failure-compatible wrappers shared by every module of the model. */
module Common {

  /** A value that may be absent (JavaScript `undefined` / `null`). */
  datatype Option<+T> = None | Some(value: T)

  /** The outcome of an operation that either yields a value or throws an error message. */
  datatype Result<+T, +E> = Success(value: T) | Failure(error: E)
}
