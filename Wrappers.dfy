/** Option and Result: the values that stand for the source's nullable
    references and for the exceptions its operations can throw. */
module Wrappers {

  datatype Option<+T> = None | Some(value: T)

  datatype Result<+R, +E> = Success(value: R) | Failure(error: E)
}
