/** Small failure-carrying datatypes shared by every module of the model. */
module Wrappers {

  /** A value that may be absent (a TypeScript optional field, `T | null`). */
  datatype Option<+T> = None | Some(value: T)

  /** What a validator returns: the parsed value, or the list of problems. */
  datatype Result<+T, +E> = Success(value: T) | Failure(error: E)

  /** What an awaited call into code outside the model gives back: a value,
      or a thrown exception whose content the caller never looks at. */
  datatype Outcome<+T> = Ok(value: T) | Fail
}
