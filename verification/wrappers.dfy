/** Plain option and result datatypes shared by the help command model. */
module Wrappers {

  /** An optional value: the model of Rust's `Option<T>`. */
  datatype Option<+T> = None | Some(value: T)

  /** A success value or an error: the model of `Fallible<T>` (`Result<T, NotionError>`). */
  datatype Result<+R, +E> = Success(value: R) | Failure(error: E)
}
