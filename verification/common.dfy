/** Option and Result types shared by the modules of the web server model. */
module Common {

  /** An optional value: the model of a pointer that may be NULL. */
  datatype Option<+T> = None | Some(value: T)

  /** Either a value or an error reason. */
  datatype Result<+T, +E> = Success(value: T) | Failure(error: E)
}
