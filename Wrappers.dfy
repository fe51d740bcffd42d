/** Optional values: a JavaScript field that may be `null` or `undefined`. */
module Wrappers {

  /** `None` stands for both `null` and `undefined`; the code treats them alike. */
  datatype Option<+T> = None | Some(value: T) {

    /** `x ?? default`, and `x || default` where `x` is never falsy otherwise. */
    function GetOr(default: T): T {
      match this
      case Some(v) => v
      case None => default
    }
  }
}
