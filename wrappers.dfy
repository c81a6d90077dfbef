/** Option and Result types shared by the modules of the model. */
module Wrappers {
  datatype Option<T> = None | Some(value: T)

  /** The outcome of a Java operation that can throw: `Fail` names the exception. */
  datatype Result<T> = Ok(value: T) | Fail(error: string)
}
