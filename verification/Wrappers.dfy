/** Optional values, for the source's `null` and `undefined`. */
module Wrappers {
  datatype Option<+T> = None | Some(value: T) {
    /** The source's `x ?? fallback`. */
    function GetOr(fallback: T): T {
      match this
      case Some(v) => v
      case None => fallback
    }
  }
}
