/** A value that may be absent: the model's stand-in for a JavaScript field
    that is `undefined`, or for a handler that returns before sending anything. */
module Wrappers {

  datatype Option<+T> = None | Some(value: T) {

    /** The carried value, or `default` when there is none. */
    function GetOr(default: T): T {
      match this
      case Some(v) => v
      case None => default
    }
  }
}
