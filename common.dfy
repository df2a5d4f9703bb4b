/** Option and Result wrappers shared by every module of the model. */
module Common {

  datatype Option<+T> = None | Some(value: T)

  /** Error taxonomy of the party routes; each carries the message the route sends back. */
  datatype Error =
    | ValidationError(message: string)
    | NotFound(message: string)
    | Forbidden(message: string)
    | AlreadyEnded(message: string)
    | QueueFull(message: string)
    | PerPersonLimitReached(message: string)

  datatype Result<+T> = Ok(value: T) | Err(error: Error)
}
