/** The optional value used across the model: a dictionary lookup that may miss,
    a decoded body that may be absent, an argument the caller may omit. */
module Wrappers {

  datatype Option<+T> = None | Some(value: T) {

    /** The value, or `default` when there is none (a Python default argument). */
    function GetOr(default: T): T {
      match this
      case Some(v) => v
      case None => default
    }
  }
}
