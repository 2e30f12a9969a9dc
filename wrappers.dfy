/** Small failure-carrying datatypes shared by the other modules. */
module Wrappers {

  /** `None` stands for Go's nil (an absent value, a nil interface). */
  datatype Option<+T> = None | Some(value: T)

  /** A value or an error, as Go's `(value, error)` pairs are used here. */
  datatype Result<+R, +E> = Success(value: R) | Failure(error: E)
}
