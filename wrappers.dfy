/** Optional values: a JavaScript `undefined`/`null` result or a missing field. */
module Wrappers {
  datatype Option<+T> = None | Some(value: T)
  {
    /** The value, or `default` when there is none (the `x ?? d` idiom). */
    function GetOr(default: T): T
    {
      match this
      case Some(v) => v
      case None => default
    }
  }
}
