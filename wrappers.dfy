/** Failure-carrying datatypes shared by the modules of this model. */
module Wrappers {

  /** A value that may be absent: a null pointer, an invalid QVariant, `std::string::npos`. */
  datatype Option<+T> = None | Some(value: T)

  /** The outcome of an operation that can fail with an error message. */
  datatype Result<+T, +E> = Success(value: T) | Failure(error: E)
}
