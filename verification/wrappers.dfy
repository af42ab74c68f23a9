/** Option and Result datatypes used by the bill service model. */
module Wrappers {

  /** An optional value: a field that a request body may or may not carry. */
  datatype Option<+T> = None | Some(value: T)

  /** The outcome of decoding a request body: a value or the decoder's error text. */
  datatype Result<+R, +E> = Success(value: R) | Failure(error: E)
}
