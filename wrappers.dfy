/** Option and Result values used for absent cache keys and for the
    exceptions the handler lets escape. */
module Wrappers {

  datatype Option<+T> = None | Some(value: T) {

    /** The wrapped value, or `default` when there is none. */
    function GetOr(default: T): T {
      match this
      case Some(v) => v
      case None => default
    }
  }

  /** Either the value an operation returns or the exception it raises. */
  datatype Result<+R, +E> = Success(value: R) | Failure(error: E)
}
