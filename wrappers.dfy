/** Optional values: a dictionary key that may be absent, a lookup that may fail. */
module Wrappers {
  datatype Option<+T> = None | Some(value: T)

  /** The value, or `default` when there is none (Python's `dict.get(key, default)`). */
  function GetOr<T>(o: Option<T>, default: T): T
  {
    match o
    case Some(v) => v
    case None => default
  }
}
