/** The Option and Result datatypes shared by the other modules. */
module Common {

  /** A value that may be missing (a nullable column, a lookup that may find nothing). */
  datatype Option<+T> = None | Some(value: T)

  /** The outcome of a validation: the validated value or the error detail. */
  datatype Result<+R, +E> = Success(value: R) | Failure(error: E)
}
