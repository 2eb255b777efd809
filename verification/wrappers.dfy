/** The optional value used for headers, Firestore fields that may be absent and
    the result of the filename match. */
module Wrappers {

  datatype Option<+T> = None | Some(value: T) {

    /** The value, or `default` when absent (JavaScript's `x || default` on a field). */
    function GetOr(default: T): T {
      match this
      case Some(v) => v
      case None => default
    }
  }
}
