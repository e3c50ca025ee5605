/** Optional values and results with an error, as the rest of the model uses them. */
module Wrappers {

  datatype Option<+T> = None | Some(value: T) {
    function GetOr(default: T): T
    {
      match this
      case Some(v) => v
      case None => default
    }
  }

  /** A call that returns a value, or raises an exception described by an error value. */
  datatype Result<+R, +E> = Success(value: R) | Failure(error: E)
}
