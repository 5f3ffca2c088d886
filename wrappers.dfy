/** The usual optional and success-or-error values. */
module Wrappers {

  datatype Option<+T> = None | Some(value: T) {
    function GetOr(default: T): T {
      match this
      case Some(v) => v
      case None => default
    }
  }

  /** A Python call that either returns a value or raises an exception with a message. */
  datatype Result<+R, +E> = Success(value: R) | Failure(error: E)
}
