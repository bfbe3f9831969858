/** Failure-carrying datatypes shared by the whole model. A JavaScript
    exception or rejected promise becomes `Err`; a missing value (an
    `undefined` array hole, a key absent from a `Map`) becomes `None`. */
module Wrappers {

  datatype Option<+T> = None | Some(value: T)

  datatype Result<+T, +E> = Ok(value: T) | Err(error: E)
}
