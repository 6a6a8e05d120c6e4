/** Failure-carrying values the rest of the model returns in place of JavaScript's `null`,
    `undefined` and thrown exceptions. */
module Wrappers {

  /** `Some(v)` for a present value, `None` for `null`/`undefined`. */
  datatype Option<+T> = None | Some(value: T) {
    function GetOr(default: T): T {
      match this
      case Some(v) => v
      case None => default
    }
  }

  /** A field after a shallow merge `{...before, ...patch}`: the patch's value when the patch
      names the field, the old value otherwise. */
  predicate Takes<T(==)>(named: Option<T>, before: T, after: T) {
    (named.Some? ==> after == named.value) && (named.None? ==> after == before)
  }

  /** A value, or the message of the exception that was thrown instead. */
  datatype Result<+R> = Ok(value: R) | Err(message: string)
}
