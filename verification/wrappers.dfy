/** Failure-carrying values shared by the model of the distance and fare pipeline. */
module Wrappers {

  /** An optional value; in the model of Go's `error` return, `None` stands for `nil`. */
  datatype Option<+T> = None | Some(value: T)

  /** The outcome of a fallible collaborator: a value, or the text of the error it returned. */
  datatype Result<+T> = Ok(value: T) | Err(cause: string)
}
