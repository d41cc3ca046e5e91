/** Plain wrapper datatypes shared by the other modules: `Option` stands
    for a Python value that may be `None`, `Result` and `Outcome` for an
    operation that may raise. */
module Wrappers {

  datatype Option<+T> = None | Some(value: T)

  datatype Result<+R, +E> = Success(value: R) | Failure(error: E)

  datatype Outcome<+E> = Pass | Fail(error: E)
}
