/** The optional value used wherever the application reads a field that may be
    `null` or `undefined`. */
module Wrappers {

  datatype Option<+T> = None | Some(value: T)
  {
    /** `o ?? d`: the stored value when there is one, the default otherwise. */
    function GetOr(default: T): (r: T)
      ensures Some? ==> r == value
      ensures None? ==> r == default
    {
      match this
      case Some(v) => v
      case None => default
    }
  }
}
