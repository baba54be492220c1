/** Option and Result, the two failure-carrying shapes the callback works with. */
module Wrappers {

  /** `None` stands for "nothing to do" (an icon arm that leaves the label alone). */
  datatype Option<+T> = None | Some(value: T)

  /** The outcome of decoding a response body: a record, or the decoder's error text. */
  datatype Result<+R, +E> = Success(value: R) | Failure(error: E)
}
