/** Plain option and result values: a JavaScript `null` becomes `None`, a
    thrown `Error` or rejected promise becomes `Failure`. */
module Wrappers {

  datatype Option<+T> = None | Some(value: T)

  datatype Result<+R, +E> = Success(value: R) | Failure(error: E)
}
