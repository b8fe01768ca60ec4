/**
 * Option and Result, the shapes the billing code uses for PHP's `null`
 * returns and for its thrown configuration errors.
 */
module Wrappers {

  datatype Option<+T> = None | Some(value: T) {
    /** The value, or `default` when there is none. */
    function GetOr(default: T): T {
      match this
      case Some(v) => v
      case None => default
    }
  }

  datatype Result<+R, +E> = Ok(value: R) | Err(error: E)
}
