/** `Option` for Python's `None` results, `Result` for exceptions that escape
    a call. */
module Wrappers {

  /** `None` stands for Python's `None` (or a value that is absent). */
  datatype Option<+T> = None | Some(value: T)

  /** `Failure` stands for an exception that propagates to the caller. */
  datatype Result<+T, +E> = Success(value: T) | Failure(error: E)
}
