/** Optional values: JavaScript's `undefined`/`null` next to a present value. */
module Wrappers {
  datatype Option<+T> = None | Some(value: T)
  {
    /** `x ?? d`: the default replaces only an absent value. */
    function GetOr(default: T): (r: T)
      ensures Some? ==> r == value
      ensures None? ==> r == default
    {
      if Some? then value else default
    }
  }
}
