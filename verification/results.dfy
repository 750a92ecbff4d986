/** Failure-carrying values shared by every module of the model. */
module Results {

  datatype Option<+T> = None | Some(value: T)

  /** The settled state of a promise: resolved with a value, or rejected with an error message. */
  datatype Result<+T> = Ok(value: T) | Err(msg: string)
}
