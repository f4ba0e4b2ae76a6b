/** Option, Result and Outcome: how the model writes Java's `null` and its exceptions. */
module Wrappers {

  /** A value that may be absent (a `@Nullable` reference). */
  datatype Option<+T> = None | Some(value: T)

  /** A returned value, or the exception that was thrown instead. */
  datatype Result<+T, +E> = Ok(value: T) | Err(error: E)

  /** A `void` call that returned normally, or the exception it threw. */
  datatype Outcome<+E> = Pass | Fail(error: E)
}
