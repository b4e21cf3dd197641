/** Failure-carrying wrappers used across the model: a thrown exception or a
    `null` result of the original code becomes `None` or `Failure`. */
module Wrappers {

  datatype Option<+T> = None | Some(value: T)

  datatype Result<+R, +E> = Success(value: R) | Failure(error: E)
}
