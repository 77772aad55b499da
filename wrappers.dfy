/** Option and Result, the two shapes every fallible operation of the model returns. */
module Wrappers {

  /** `None` stands for JavaScript's `undefined`/`null` wherever the source has an optional value. */
  datatype Option<+T> = None | Some(value: T)

  /** The outcome of a call that may throw: `Failure` carries the thrown error. */
  datatype Result<+T, +E> = Success(value: T) | Failure(error: E)
}
