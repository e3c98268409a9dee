/** Failure-carrying values: the script's thrown exceptions become `Failure`. */
module Options {

  datatype Option<+T> = None | Some(value: T)

  datatype Result<+T, +E> = Success(value: T) | Failure(error: E)
}
