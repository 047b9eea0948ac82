/** Optional values: the model's rendering of JavaScript's `undefined`/`null`
    next to a present value. */
module Wrappers {

  datatype Option<+T> = None | Some(value: T) {

    /** The present value, or `default` when absent (the `??` operator). */
    function GetOr(default: T): T {
      match this
      case Some(v) => v
      case None => default
    }
  }

  /** The outcome of an operation that can throw: its value, or the error. */
  datatype Result<+T, +E> = Success(value: T) | Failure(error: E)

  /** JavaScript truthiness of an optional string: present and not empty. */
  predicate TruthyString(s: Option<string>) {
    s.Some? && s.value != ""
  }

  /** `s || fallback` for an optional string. */
  function OrString(s: Option<string>, fallback: string): (r: string)
    ensures TruthyString(s) ==> r == s.value
    ensures !TruthyString(s) ==> r == fallback
  {
    if TruthyString(s) then s.value else fallback
  }

  /** JavaScript truthiness of an optional number: present and not zero
      (NaN is not modelled). */
  predicate TruthyNumber(n: Option<int>) {
    n.Some? && n.value != 0
  }
}
