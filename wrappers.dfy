/** Option and Result values shared by every module of the model. */
module Wrappers {

  /** A value that may be missing: Python's None, a failed fetch, or a pandas NaN. */
  datatype Option<+T> = None | Some(value: T) {
    function GetOr(default: T): T {
      match this
      case Some(v) => v
      case None => default
    }
  }

  /** The outcome of a call that may raise. */
  datatype Result<+R, +E> = Success(value: R) | Failure(error: E)
}
