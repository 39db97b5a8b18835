/** Failure-compatible wrappers shared by the models: `Option` stands for a
    nullable value (`string | null`, an optional field, `Array.find` missing),
    `Result` for an operation that may raise. */
module Options {

  datatype Option<+T> = None | Some(value: T)

  datatype Result<+T, +E> = Success(value: T) | Failure(error: E)
}
