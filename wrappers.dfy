/** Optional values and results of calls that may fail, as used throughout the model. */
module Wrappers {

  /** A value that may be absent: a missing query argument, a missing JSON body. */
  datatype Option<+T> = None | Some(value: T) {

    /** The value, or `default` when absent (Python's `dict.get(key, default)` shape). */
    function GetOr(default: T): T
    {
      match this
      case Some(v) => v
      case None => default
    }
  }

  /** The outcome of a call that may raise: `Failure(e)` carries the exception text `str(e)`. */
  datatype Result<+R, +E> = Success(value: R) | Failure(error: E)
}
