/** Failure-compatible wrappers shared by both adapters: Go's nil pointers
    become Option, Go's (value, error) pairs become Result. */
module Wrappers {

  datatype Option<+T> = None | Some(value: T)

  datatype Result<+R, +E> = Success(value: R) | Failure(error: E)

  /** Go's `error` return with no payload: nil or an error value. */
  datatype Outcome<+E> = Pass | Fail(error: E)
}
