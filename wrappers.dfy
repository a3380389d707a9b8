/** Optional values, used wherever the Python code returns `None`. */
module Wrappers {
  datatype Option<T> = None | Some(value: T)
  {
    /** The value, or `default` when there is none (Python's `x or default` on an optional). */
    function GetOr(default: T): T
    {
      match this
      case None => default
      case Some(v) => v
    }
  }
}
