/** Option: a value that may be absent (a JavaScript `undefined` or `null`, where only truthiness is tested). */
module Wrappers {

  datatype Option<+T> = None | Some(value: T) {

    /** The value, or `default` when absent. */
    function GetOr(default: T): T {
      match this
      case Some(v) => v
      case None => default
    }
  }
}
