/** Option and Result, the two failure-carrying shapes used across the model. */
module Wrappers {

  datatype Option<+T> = None | Some(value: T)

  /** `Err` carries the HTTP-style status code and the human-readable detail
      that the service raises or returns instead of a value. */
  datatype Result<+T> = Ok(value: T) | Err(status: int, detail: string)
}
