/** Failure-carrying values shared by the label store and the lifecycle controller. */
module Wrappers {

  /** An optional value; `None` stands for an operation that threw. */
  datatype Option<+T> = None | Some(value: T)

  /** The outcome of an operation that either returns a value or raises an error. */
  datatype Result<+R, +E> = Success(value: R) | Failure(error: E)
}
