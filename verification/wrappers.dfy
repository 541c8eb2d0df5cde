/** The optional-value datatype used where the source returns `None`
    (a missing document field, an unknown building name, a failed load). */
module Wrappers {

  datatype Option<+T> = None | Some(value: T) {

    /** The wrapped value, or `default` when there is none. */
    function GetOr(default: T): T {
      match this
      case Some(v) => v
      case None() => default
    }
  }
}
