/** Option and Result, used for Python's `None` and for raised exceptions / sys.exit. */
module Wrappers {

  datatype Option<+T> = None | Some(value: T)

  /** `Err` stands for an exception or an early process exit in the source. */
  datatype Result<+T, +E> = Ok(value: T) | Err(error: E)
}
