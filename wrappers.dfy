/** The optional value used for the JSON fields and lookups that may be absent. */
module Wrappers {

  /** A value that may be missing, as `undefined` or `null` is in the payload. */
  datatype Option<+T> = None | Some(value: T) {

    /** JavaScript's nullish coalescing `this ?? default`: only a missing value is replaced. */
    function OrElse(default: T): (r: T)
      ensures Some? ==> r == value
      ensures None? ==> r == default
    {
      match this
      case Some(v) => v
      case None => default
    }
  }
}
