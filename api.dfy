/** Result types shared by the request handlers of the models. */
module Api {

  /** A value that may be missing (`None`/`null`/`undefined` in the services). */
  datatype Option<+T> = None | Some(value: T)

  /** The outcome of a handler: a value, or the HTTP error it raises. */
  datatype Result<+T> = Ok(value: T) | Error(status: int, message: string)
}
