/** The optional-value datatype used for Intent extras and for the keys of a
    status record that may be omitted. */
module Wrappers {

  datatype Option<+T> = None | Some(value: T) {

    /** The value an Intent extra carries, or `default` when the extra is missing. */
    function GetOr(default: T): T {
      match this
      case Some(v) => v
      case None => default
    }
  }
}
