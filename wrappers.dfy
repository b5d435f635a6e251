/** Option, result and outcome types shared by the modules of this model. */
module Wrappers {

  /** A value that may be missing: Python's `None` or an unset variable. */
  datatype Option<+T> = None | Some(value: T)

  /** A value or the error that was raised instead of returning it. */
  datatype Result<+T, +E> = Success(value: T) | Failure(error: E)

  /** The outcome of a call that returns nothing but may raise. */
  datatype Outcome<+E> = Pass | Fail(error: E)
}
