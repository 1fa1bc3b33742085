/** The absent-or-present and success-or-failure values the rest of the model is built on. */
module Wrappers {

  /** A JavaScript value that may be `null`/`undefined` (None) or hold a value (Some). */
  datatype Option<+T> = None | Some(value: T)

  /** An awaited call: the value it resolves to, or the error it throws. */
  datatype Result<+T, +E> = Ok(value: T) | Err(error: E)
}
