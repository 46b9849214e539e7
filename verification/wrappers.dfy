/** Optional values: JavaScript's `undefined`/`null` for a field or result that may be absent. */
module Wrappers {

  datatype Option<+T> = None | Some(value: T) {

    /** The value if present, else `default` (JavaScript's `x ?? default`). */
    function GetOr(default: T): T {
      match this
      case Some(v) => v
      case None => default
    }

    /** `x ?? y` where both sides may be absent. */
    function OrElse(other: Option<T>): Option<T> {
      if Some? then this else other
    }
  }
}
