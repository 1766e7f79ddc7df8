/** The `Result<T, String>` shape that every fallible operation of the state manager returns. */
module Wrappers {

  /** A value or a human-readable error message; the manager has no structured error codes. */
  datatype Result<+T> = Ok(value: T) | Err(msg: string)
}
