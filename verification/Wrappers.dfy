/** Success-or-absence types shared by the model. A C++ exception or an error return is a Failure. */
module Wrappers {

  datatype Option<+T> = None | Some(value: T)

  datatype Result<+R, +E> = Success(value: R) | Failure(error: E)
}
