/** Option and Result, the two failure-carrying shapes the model needs. */
module Wrappers {

  datatype Option<+T> = None | Some(value: T)

  /** The outcome of an awaited call: the value it resolved to, or what it threw. */
  datatype Result<+T, +E> = Ok(value: T) | Err(error: E)
}
