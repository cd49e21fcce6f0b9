/** Option values standing for JavaScript's `undefined` and `null`. */
module Wrappers {

  datatype Option<+T> = None | Some(value: T)

  /** `o || []` for an optional array. */
  function OrEmpty<T>(o: Option<seq<T>>): seq<T>
  {
    match o
    case Some(s) => s
    case None => []
  }
}
