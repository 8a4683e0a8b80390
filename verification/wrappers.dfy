/** The optional-value type shared by every module of the model: a JavaScript
    `null` (or an absent query parameter, or a missing storage key) is `None`. */
module Wrappers {

  datatype Option<+T> = None | Some(value: T) {

    /** The wrapped value, or `default` when there is none. */
    function GetOr(default: T): T {
      match this
      case Some(v) => v
      case None => default
    }
  }
}
