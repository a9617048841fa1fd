/** Optional values: the model's stand-in for Java's `null` and for protocol-buffer
    fields whose presence is tested with `hasX()`. */
module Wrappers {

  datatype Option<+T> = None | Some(value: T) {

    /** The value if present, otherwise `default`. */
    function GetOr(default: T): T {
      match this
      case Some(v) => v
      case None => default
    }
  }
}
