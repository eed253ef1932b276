/** Small value wrappers shared by the whole model. */
module Wrappers {

  /** Python's `None` (None) or a value (Some). */
  datatype Option<+T> = None | Some(value: T)

  /** One key of a Python dict as `dict.get` sees it: the key is missing,
      it is present and holds `None`, or it is present with a value. */
  datatype Slot<+T> = Missing | Null | Given(value: T) {

    /** `d.get(key)`: both a missing key and a stored `None` give `None`. */
    function Get(): (r: Option<T>)
      ensures r.Some? <==> Given?
      ensures r.Some? ==> r.value == value
    {
      if Given? then Some(value) else None
    }

    /** `d.get(key, default)`: only a missing key gives the default; a stored
        `None` is returned as `None`. */
    function GetOr(default: T): (r: Option<T>)
      ensures r.None? <==> Null?
      ensures Missing? ==> r == Some(default)
      ensures Given? ==> r == Some(value)
    {
      match this
      case Missing => Some(default)
      case Null => None
      case Given(v) => Some(v)
    }
  }
}
