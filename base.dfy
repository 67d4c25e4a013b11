/** Option and Result, used throughout the model for Python's `None` and for
    operations that either return a value or raise. */
module Base {

  datatype Option<+T> = None | Some(value: T)

  /** `Ok` is a normal return; `Err` is a raised exception. */
  datatype Result<+T, +E> = Ok(value: T) | Err(error: E)
}
