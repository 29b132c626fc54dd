/** Failure-carrying values shared by the modules of this model. */
module Wrappers {

  /** A Python `Optional[T]`: `None` or a present value. */
  datatype Option<+T> = None | Some(value: T)

  /** The outcome of an operation that raises an exception on bad input. */
  datatype Result<+T, +E> = Ok(value: T) | Err(error: E)
}
