/** The optional-value type shared by all modules: JavaScript's `null`/`undefined`
    and Python's `None` are `None`. */
module Wrappers {

  datatype Option<+T> = None | Some(value: T) {

    /** The value, or `default` when there is none. */
    function GetOr(default: T): T {
      match this
      case Some(v) => v
      case None => default
    }
  }
}
