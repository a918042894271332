/** Optional values: a JavaScript `undefined` / `null` or a SQL NULL on one side, a value on the other. */
module Wrappers {

  datatype Option<+T> = None | Some(value: T) {

    /** The value, or `default` where JavaScript's `||` would fall back to it. */
    function GetOr(default: T): T {
      match this
      case Some(v) => v
      case None => default
    }
  }
}
