/** Option and Result, used for JavaScript's "absent" values and for rejected promises. */
module Wrappers {

  /** A value that may be absent: `undefined` or `null` in the source. */
  datatype Option<+T> = None | Some(value: T)

  /** The outcome of an operation that either resolves with a value or fails with an error. */
  datatype Result<+R, +E> = Success(value: R) | Failure(error: E)
}
