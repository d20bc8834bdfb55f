/** Option and Result, shared by the analysis and the acquisition models. */
module Wrappers {

  /** A value that may be missing. In a numeric column, `None` stands for pandas' NaN. */
  datatype Option<+T> = None | Some(value: T)

  /** Either a value or the error a Python call would have raised. */
  datatype Result<+T, +E> = Ok(value: T) | Err(error: E)
}
