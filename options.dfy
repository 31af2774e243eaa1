/** Failure-compatible wrappers shared by the model: Option stands for a
    pandas value that may be NaN (or a Python None), Result for an operation
    that raises instead of returning. */
module Options {

  datatype Option<+T> = None | Some(value: T)

  datatype Result<+T, +E> = Success(value: T) | Failure(error: E)
}
