/** Option and Result values shared by every module of the model. */
module Wrappers {

  /** A possibly missing value: `undefined`/`None` in the modelled code. */
  datatype Option<+T> = None | Some(value: T) {

    /** The held value, or `default` when there is none. */
    function GetOr(default: T): T {
      match this
      case Some(v) => v
      case None => default
    }
  }

  /** A computation that either produced a value or raised an error message. */
  datatype Result<+T, +E> = Success(value: T) | Failure(error: E)
}
