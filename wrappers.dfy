/** Optional values: every `field?: T` of the TypeScript records becomes an `Option<T>`. */
module Wrappers {

  datatype Option<+T> = None | Some(value: T) {

    /** `x ?? default`, also the `(x || 0)` idiom for optional numbers. */
    function GetOr(default: T): T {
      match this
      case Some(v) => v
      case None => default
    }
  }
}
