/** Optional values and results with an error, used throughout the model. */
module Wrappers {

  /** A value that may be absent: PHP's `false`, `null` or an unset array index. */
  datatype Option<+T> = None | Some(value: T) {
    function GetOr(default: T): T {
      match this
      case Some(v) => v
      case None => default
    }
  }

  /** Either a value or an error code: a `WP_Error` return in the source. */
  datatype Result<+T, +E> = Ok(value: T) | Err(error: E)
}
