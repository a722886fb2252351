/** Option, Result and Outcome: the values that stand for PHP's null returns and thrown exceptions. */
module Basics {

  /** A value or PHP's `null`. */
  datatype Option<+T> = None | Some(value: T)

  /** A returned value, or the exception that was thrown instead. */
  datatype Result<+T, +E> = Success(value: T) | Failure(error: E)

  /** A call that returns nothing, or the exception that was thrown instead. */
  datatype Outcome<+E> = Pass | Fail(error: E)
}
