/** The optional value shared by the backend and viewer models. */
module Wrappers {

  /** A value that may be absent: Python's None, JavaScript's null or undefined. */
  datatype Option<T> = None | Some(value: T) {
    /** The value, or `default` when absent (`dict.get(key, default)`). */
    function GetOr(default: T): (r: T)
      ensures Some? ==> r == value
      ensures None? ==> r == default
    {
      if Some? then value else default
    }
  }
}
