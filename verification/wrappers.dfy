/** Two small datatypes used throughout the model: an optional value
    (the source's possibly-null handles) and a success/failure result (the
    source's thrown runtime errors). */
module Wrappers {

  datatype Option<+T> = None | Some(value: T)

  datatype Result<+R, +E> = Success(value: R) | Failure(error: E)
}
