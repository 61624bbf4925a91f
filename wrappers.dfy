/** Java's `Optional` (and a nullable reference) and a result that is either a value or
    the exception a call throws. */
module Wrappers {

  /** `Optional.empty()` / `null` is `None`; `Optional.of(v)` / a reference is `Some(v)`. */
  datatype Option<+T> = None | Some(value: T)

  /** A call that returns `value` or throws `error`. */
  datatype Result<+R, +E> = Success(value: R) | Failure(error: E)
}
