/** Optional values: Python's `None` next to a value of some type. */
module Wrappers {

  datatype Option<T> = None | Some(value: T) {

    /** The value if present, `default` otherwise. */
    function GetOr(default: T): (r: T)
      ensures Some? ==> r == value
      ensures None? ==> r == default
    {
      match this
      case Some(v) => v
      case None => default
    }
  }
}
