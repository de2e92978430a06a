/** Optional values: a JavaScript `undefined`, a `NaN` from a failed parse,
    or an absent optional field. */
module Wrappers {

  datatype Option<+T> = None | Some(value: T) {

    /** The value, or `default` when absent (JavaScript's `x || default`
        for numbers, `x ?? default` in general). */
    function GetOr(default: T): T {
      match this
      case Some(v) => v
      case None => default
    }
  }
}
