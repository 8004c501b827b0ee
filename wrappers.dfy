/** Option and Result datatypes shared by the model. */
module Wrappers {

  /** A value that may be absent: Go's nil error or nil pointer. */
  datatype Option<+T> = None | Some(value: T)

  /** The outcome of a library call that either yields a value or fails with an error text. */
  datatype Result<+T> = Ok(value: T) | Err(msg: string)
}
