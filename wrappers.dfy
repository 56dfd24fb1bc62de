/** Optional values, as the source's `null`/`undefined` results. */
module Wrappers {
  datatype Option<T> = None | Some(value: T)
  {
    /** `x || d` for a value that is present or missing. */
    function GetOr(d: T): T
    {
      if Some? then value else d
    }
  }
}
