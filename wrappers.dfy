/** Failure-carrying result types shared by the model. */
module Wrappers {

  /** An optional value; `None` stands for Go's `nil` (no error, no map). */
  datatype Option<+T> = None | Some(value: T)

  /** The outcome of a step that either yields a value or an error message. */
  datatype Result<+T> = Ok(value: T) | Err(message: string)
}
