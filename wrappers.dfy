/** Kotlin's nullable types (`T?`) as an Option datatype. */
module Wrappers {

  datatype Option<+T> = None | Some(value: T) {

    /** The `?:` (Elvis) operator: the value, or `default` when null. */
    function GetOr(default: T): T {
      match this
      case Some(v) => v
      case None => default
    }

    /** The `?.let(f)` safe call: apply `f` to a present value, stay null otherwise. */
    function Map<U>(f: T -> U): (r: Option<U>)
      ensures r.Some? <==> Some?
      ensures Some? ==> r.value == f(value)
    {
      match this
      case Some(v) => Some(f(v))
      case None => None
    }
  }
}
