/** Option, used wherever the source returns `null`, `undefined` or the
    `Infinity` "nothing found yet" sentinel. */
module Wrappers {

  datatype Option<+T> = None | Some(value: T) {

    /** Returns the value held in Some, or the default when None. */
    function GetOr(default: T): T {
      match this
      case Some(v) => v
      case None => default
    }
  }
}
