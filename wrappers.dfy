/** The optional values of the source: `undefined`, `null` or a value. */
module Wrappers {

  datatype Option<+T> = None | Some(value: T) {

    /**
     * The value, or `default` when absent: the source's `x ?? default`. It is
     * also `x || default` wherever `x` is never a falsy value such as 0, ""
     * or false, and wherever such a value equals `default`.
     */
    function GetOr(default: T): T {
      match this
      case Some(v) => v
      case None => default
    }
  }
}
