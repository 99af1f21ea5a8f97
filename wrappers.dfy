/** Option and Result, the wrappers the rest of the model returns. */
module Wrappers {

  datatype Option<+T> = None | Some(value: T)

  /** `Err` stands for a Python exception raised out of the operation. */
  datatype Result<+T, +E> = Ok(value: T) | Err(error: E)
}
