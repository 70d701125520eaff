/** Failure-carrying values shared by the modules of this project. */
module Wrappers {

  /** A value that may be absent; a series cell that is `None` is pandas' NaN. */
  datatype Option<+T> = None | Some(value: T)

  /** The outcome of an operation that raises in `calculate_moving_average` or `process_stock_data`. */
  datatype Result<+R, +E> = Ok(value: R) | Err(error: E)
}
