/** Result types shared by the models of the backend and of the console. */
module Common {

  datatype Option<+T> = None | Some(value: T)

  /** A Go call that returns a value or an error. */
  datatype Result<+T, +E> = Success(value: T) | Failure(error: E)
}
