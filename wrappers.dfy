/** Optional values: the model's stand-in for Go's nil pointers and (value, ok) pairs. */
module Wrappers {

  datatype Option<+T> = None | Some(value: T) {

    /** The value, or `default` when there is none (Go's `v, ok := ...; if !ok { v = default }`). */
    function GetOr(default: T): T {
      match this
      case Some(v) => v
      case None => default
    }
  }
}
