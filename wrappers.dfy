/** Failure-compatible helper datatypes shared by the model. */
module Wrappers {

  /** A value that may be absent; `None` stands for Java's `null`. */
  datatype Option<+T> = None | Some(value: T)

  /** The outcome of an operation that can reject its arguments with an IllegalArgumentException. */
  datatype Result<+T> = Ok(value: T) | IllegalArgument(message: string)
}
