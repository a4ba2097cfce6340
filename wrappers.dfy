/** Optional values: a request-body field that may be absent. */
module Wrappers {
  datatype Option<+T> = None | Some(value: T) {
    /** The value when present, else the default. */
    function GetOr(default: T): T {
      match this
      case Some(v) => v
      case None => default
    }
  }
}
