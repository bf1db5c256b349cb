/** Optional values (Python's `None`) and the outcome of an operation that
    may raise. */
module Wrappers {

  datatype Option<+T> = None | Some(value: T) {
    /** `value if value is not None else default` */
    function GetOr(default: T): T {
      match this
      case Some(v) => v
      case None => default
    }
  }

  datatype Result<+R, +E> = Success(value: R) | Failure(error: E)
}
