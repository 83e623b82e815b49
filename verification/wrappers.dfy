/** Optional values: JavaScript's `null`/`undefined` versus a present value. */
module Wrappers {

  datatype Option<+T> = None | Some(value: T) {

    /** `x ?? default`: the present value, else the fallback */
    function GetOr(default: T): T {
      match this
      case Some(v) => v
      case None => default
    }
  }
}
