/** Option: the model's rendering of JavaScript's `undefined` / `null` and of a failed `find`. */
module Wrappers {

  datatype Option<+T> = None | Some(value: T) {

    /** `x ?? d` and `x || d` for a value that is either absent or present. */
    function GetOr(default: T): T {
      match this
      case Some(v) => v
      case None => default
    }

    /** The value as a one-element sequence, or the empty one. */
    function ToSeq(): (r: seq<T>)
      ensures |r| <= 1
      ensures Some? ==> r == [value]
      ensures None? <==> r == []
    {
      match this
      case Some(v) => [v]
      case None => []
    }
  }
}
