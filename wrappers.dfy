/** Optional values: a field that may be absent (`undefined` / `null` in JavaScript). */
module Wrappers {
  datatype Option<T> = None | Some(value: T)
  {
    function GetOr(default: T): T {
      match this
      case None => default
      case Some(v) => v
    }
  }
}
