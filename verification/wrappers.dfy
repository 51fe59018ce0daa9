/** Failure-carrying wrappers used by the shipping model: an optional value for
    repository lookups that may find nothing, and a result for endpoint replies
    that either succeed or fail with an HTTP-level error. */
module Wrappers {

  /** A value that may be absent, standing in for a Java reference that may be null. */
  datatype Option<+T> = None | Some(value: T)

  /** Either a successful value or an error. */
  datatype Result<+R, +E> = Success(value: R) | Failure(error: E)
}
