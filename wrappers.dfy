/** Option, Result and Outcome: absent values and the error paths of the model. */
module Wrappers {

  /** A value that may be absent; stands for Ruby's `nil`. */
  datatype Option<+T> = None | Some(value: T)

  /** A value or the error raised instead of producing it. */
  datatype Result<+R, +E> = Success(value: R) | Failure(error: E)

  /** An operation that returns nothing useful, or the error it raised. */
  datatype Outcome<+E> = Pass | Fail(error: E)
}
