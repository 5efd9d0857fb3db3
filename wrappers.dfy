/** The optional value used for the store's nullable and optional fields. */
module Wrappers {

  /** `None` stands for a missing key, `undefined` or `null`. */
  datatype Option<+T> = None | Some(value: T) {

    /** The value if present, otherwise `default`. */
    function GetOr(default: T): T
    {
      match this
      case Some(v) => v
      case None => default
    }
  }
}
