/** Absent-or-present values and results that may carry an error. */
module Wrappers {

  /** A value that may be missing: JavaScript's `undefined` becomes `None`. */
  datatype Option<+T> = None | Some(value: T)

  /** The outcome of an operation that may throw: `Failure` carries the error message. */
  datatype Result<+T> = Success(value: T) | Failure(message: string)
}
