/** The optional value used wherever the source reads a field that may be
    undefined or null. */
module Wrappers {
  datatype Option<+T> = None | Some(value: T)
  {
    /** `x ?? d`: the value when present, the default otherwise. */
    function GetOr(d: T): T
    {
      match this
      case Some(v) => v
      case None => d
    }
  }
}
