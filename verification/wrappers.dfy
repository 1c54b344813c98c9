/** Optional values and results with an error, shared by every module of the model. */
module Wrappers {

  /** A value that may be missing: `undefined`/`null` in the source become `None`. */
  datatype Option<+T> = None | Some(value: T) {
    function GetOr(default: T): T {
      match this
      case Some(v) => v
      case None => default
    }
  }

  /** The outcome of an operation that throws or returns an error status in the source. */
  datatype Result<+R, +E> = Success(value: R) | Failure(error: E)
}
