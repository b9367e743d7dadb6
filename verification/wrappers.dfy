/** Failure-carrying result types shared by the pipeline modules. */
module Wrappers {

  /** A value that may be absent, such as an optional dataset in the store. */
  datatype Option<+T> = None | Some(value: T)

  /** Either a computed value or the error that stopped the computation. */
  datatype Result<+R, +E> = Success(value: R) | Failure(error: E)
}
