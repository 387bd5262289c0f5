/** The optional-value datatype used across the model: an optional request
    field or an optional result. For decoded JSON strings and booleans, `None`
    stands for a field that is left out (`undefined`); a JSON `null` in those
    fields is read the same way. */
module Wrappers {

  datatype Option<+T> = None | Some(value: T) {

    /** `value ?? fallback` */
    function GetOr(fallback: T): T {
      match this
      case Some(v) => v
      case None => fallback
    }
  }
}
