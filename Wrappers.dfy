/** Option and Result values used across the model in place of
    JavaScript's null/undefined and thrown exceptions. */
module Wrappers {

  datatype Option<+T> = None | Some(value: T) {
    /** The value, or `default` when absent (JavaScript's `x || default`
        for a nullable array). */
    function GetOr(default: T): T {
      match this
      case Some(v) => v
      case None => default
    }
  }

  /** The outcome of an operation that can fail, such as a promise that
      resolves or rejects. */
  datatype Result<+T> = Ok(value: T) | Err(error: string)

  /** The elements of a nullable array: `(xs || [])`. */
  function Elements<T>(xs: Option<seq<T>>): (r: seq<T>)
    ensures xs.None? ==> r == []
    ensures xs.Some? ==> r == xs.value
  {
    xs.GetOr([])
  }
}
