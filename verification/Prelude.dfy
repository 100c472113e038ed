/** Shared value types. */
module Prelude {

  datatype Option<+T> = None | Some(value: T)

  /** The outcome of a call that may raise one of the source's exceptions. */
  datatype Result<+T, +E> = Ok(value: T) | Err(error: E)
}
