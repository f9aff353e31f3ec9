/** Failure-carrying datatypes shared by every module of the model. */
module Wrappers {

  datatype Option<+T> = None | Some(value: T) {
    /** Python's `x or default` / `d.get(k, default)` on an optional value. */
    function GetOr(default: T): T {
      match this
      case Some(v) => v
      case None => default
    }
  }

  datatype Result<+T, +E> = Success(value: T) | Failure(error: E)

  /** The outcome of a call that may raise: its value, or the text of the exception (`str(e)`). */
  type Reply<T> = Result<T, string>

  /** The outcome of a check that returns nothing on success. */
  datatype Outcome<+E> = Pass | Fail(error: E)
}
