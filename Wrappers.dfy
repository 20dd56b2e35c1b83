/** Optional values and pass/fail results shared by every module of the model. */
module Wrappers {

  /** A value that may be absent: C#'s `null` for references and `T?` for value types. */
  datatype Option<+T> = None | Some(value: T)

  /** The outcome of a controller action: a success value or the error it answers with. */
  datatype Result<+T, +E> = Ok(value: T) | Err(error: E)
}
