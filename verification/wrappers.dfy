/** The optional value returned by a number parse. */
module Wrappers {

  /** Some/None in place of the `bool` + `out` pair of a TryParse call. */
  datatype Option<+T> = None | Some(value: T) {

    /** The wrapped value, or `default` when there is none. */
    function GetOr(default: T): T {
      match this
      case Some(v) => v
      case None => default
    }
  }
}
