/** The two failure-carrying shapes the rewrite uses: an optional value for the
    expected "cannot decorrelate" outcome, and a result for a builder fault. */
module Wrappers {

  datatype Option<+T> = None | Some(value: T)

  datatype Result<+R, +E> = Success(value: R) | Failure(error: E)
}
