/** Failure-carrying values for the model's inputs: a Python call that may
    raise is either `Success(value)` or `Failure(message)`, where `message`
    is the text `str(e)` would give. */
module Wrappers {

  datatype Option<+T> = None | Some(value: T)

  datatype Result<+T, +E> = Success(value: T) | Failure(error: E)
}
