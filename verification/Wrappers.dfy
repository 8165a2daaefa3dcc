/** Outcome datatypes shared by the models. */
module Wrappers {
  datatype Option<+T> = None | Some(value: T)

  /** A command's answer: a value, or the reason it was refused. */
  datatype Result<+T, +E> = Ok(value: T) | Err(error: E)
}
