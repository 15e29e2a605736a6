/** Option and Result values shared by every module of the model. */
module Basics {

  /** A value that may be absent: TypeScript's `T | null` or `T | undefined`. */
  datatype Option<+T> = None | Some(value: T)

  /** The outcome of an operation that throws in the source. */
  datatype Result<+T, +E> = Ok(value: T) | Err(error: E)
}
