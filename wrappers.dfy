/** The optional value used wherever the source has `null`, `undefined` or an absent storage key. */
module Wrappers {

  datatype Option<+T> = None | Some(value: T)
  {
    /** `x || fallback` on an optional value */
    function GetOr(fallback: T): T
    {
      match this
      case Some(v) => v
      case None => fallback
    }
  }
}
