/** Values that may be absent, and results that may be an error. */
module Wrappers {

  /** A Java reference that may be `null` is modelled as an `Option`. */
  datatype Option<+T> = None | Some(value: T)

  /** A call that either returns a value or throws is modelled as a `Result`. */
  datatype Result<+R, +E> = Success(value: R) | Failure(error: E)
}
