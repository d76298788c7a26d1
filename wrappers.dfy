/** Optional values: stands for JavaScript's `undefined` wherever the tooltip
    code tests a value with `angular.isDefined` or for truthiness. */
module Wrappers {

  datatype Option<+T> = None | Some(value: T) {

    /** The value, or `default` when there is none. */
    function GetOr(default: T): T {
      match this
      case Some(v) => v
      case None => default
    }
  }
}
