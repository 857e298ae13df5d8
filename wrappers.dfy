/** An optional value: a parse that failed (NaN in the source) or a bound
    that is not set (undefined in the source) is None. */
module Wrappers {

  datatype Option<T> = None | Some(value: T)
  {
    /** The value if there is one, else the fallback. */
    function GetOr(fallback: T): T
    {
      if Some? then value else fallback
    }
  }
}
