/** Small failure-carrying datatypes shared by the other modules. */
module Wrappers {

  /** A value that may be absent: Go's nil pointers and nil interface values. */
  datatype Option<+T> = None | Some(value: T)

  /** A value, or the error that stopped the computation before producing one. */
  datatype Result<+T, +E> = Success(value: T) | Failure(error: E)
}
