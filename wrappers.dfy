/** Optional values, standing in for PHP's NULL. */
module Wrappers {

  datatype Option<+T> = None | Some(value: T) {

    /** The wrapped value, or `default` for None. */
    function GetOr(default: T): T {
      match this
      case Some(v) => v
      case None => default
    }
  }

  /** A value, or the error that took its place. */
  datatype Result<+T, +E> = Ok(value: T) | Err(error: E)
}
