/** Option and Result: the values that stand for JavaScript's `undefined`
    results and thrown errors in the weather widget. */
module Wrappers {

  datatype Option<+T> = None | Some(value: T)

  datatype Result<+R, +E> = Success(value: R) | Failure(error: E)
}
