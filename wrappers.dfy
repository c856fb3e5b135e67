/** Option and Result values standing in for JavaScript's `null` and thrown exceptions. */
module Wrappers {

  /** `None` is JavaScript's `null` (or `undefined`); `Some(v)` is a present value. */
  datatype Option<+T> = None | Some(value: T)

  /** The two kinds of exception the core can raise. */
  datatype Error =
    | AssertionError(message: string)  // thrown by Node's `assert`
    | TypeError(message: string)       // thrown when a non-function is called

  /** A computation that either returns a value or throws. */
  datatype Result<+T> = Ok(value: T) | Failure(error: Error)
}
