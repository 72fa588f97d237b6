/** Optional values and error-carrying results shared by every module of the model. */
module Wrappers {

  /** Python's `None` / TypeScript's `null` and `undefined` next to a present value. */
  datatype Option<+T> = None | Some(value: T)

  /** A computation that either returns a value or raises an exception. */
  datatype Result<+T, +E> = Ok(value: T) | Err(error: E)

  /** A computation that returns nothing, or raises an exception. */
  datatype Outcome<+E> = Pass | Fail(error: E)
}
