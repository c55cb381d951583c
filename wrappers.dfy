/** Optional values and results with an error, used wherever the source
    returns None or raises. */
module Wrappers {

  datatype Option<+T> = None | Some(value: T) {
    /** Python's `d.get(k, default)` pattern, once the lookup is an Option. */
    function GetOr(default: T): T {
      match this
      case Some(v) => v
      case None => default
    }
  }

  datatype Result<+T, +E> = Ok(value: T) | Err(error: E)
}
