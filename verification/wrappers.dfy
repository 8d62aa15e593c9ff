/** Optional values (a JSON field that may be absent, Python's `None`) and
    results that carry either a value or an error. */
module Wrappers {

  /** An optional value: `None` is an absent field. */
  datatype Option<+T> = None | Some(value: T)

  /** A computation that either succeeds with a value or fails with an error. */
  datatype Result<+R, +E> = Success(value: R) | Failure(error: E)
}
