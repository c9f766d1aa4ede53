/** Optional values: JavaScript's `undefined`/`null` on one side, a present value on the other. */
module Wrappers {

  datatype Option<+T> = None | Some(value: T) {

    /** The value, or `default` when absent (the source's `x ?? default`). */
    function GetOr(default: T): T {
      match this
      case Some(v) => v
      case None => default
    }
  }

  /** A call that returns a value, or throws an `Error` carrying a message. */
  datatype Outcome<+T> = Ok(value: T) | Failed(message: string)

  /** JavaScript truthiness of an optional string: present and non-empty. */
  predicate Declared(s: Option<string>) {
    s.Some? && s.value != ""
  }

  /** `a || b` on optional strings. */
  function Or(a: Option<string>, b: Option<string>): (r: Option<string>)
    ensures Declared(a) ==> r == a
    ensures !Declared(a) ==> r == b
  {
    if Declared(a) then a else b
  }
}
