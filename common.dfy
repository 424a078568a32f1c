/** Failure-compatible wrappers used across the model: an optional value and
    a success-or-error result (the Python code raises; the model returns). */
module Common {

  datatype Option<+T> = None | Some(value: T)

  datatype Result<+T, +E> = Success(value: T) | Failure(error: E)
}
