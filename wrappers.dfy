/** The optional value used for nullable fields and absent storage entries. */
module Wrappers {

  datatype Option<+T> = None | Some(value: T) {

    /** `x || fallback` for a nullable field. */
    function GetOr(fallback: T): T {
      match this
      case Some(v) => v
      case None => fallback
    }
  }
}
