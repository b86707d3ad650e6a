/** Option and Result types shared by the modules of this model. A JavaScript
    `null` becomes `None`; a `throw new Error(...)` becomes `Failure`. */
module Wrappers {

  datatype Option<+T> = None | Some(value: T)

  datatype Result<+R, +E> = Success(value: R) | Failure(error: E)
}
