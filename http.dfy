/** Outcomes of a request handler: a value, or an HTTP status with the message
    the handler throws. */
module Http {

  datatype Option<+T> = None | Some(value: T)

  /** An error response: the status the handler sets and the message it throws. */
  datatype Error = Error(status: int, message: string)

  datatype Result<+T> = Ok(value: T) | Err(error: Error) {
    predicate IsFailure() { Err? }
    function PropagateFailure<U>(): Result<U>
      requires Err?
    {
      Err(error)
    }
    function Extract(): T
      requires Ok?
    {
      value
    }
  }

  const BadRequest: int := 400
  const NotFound: int := 404
  const ServerError: int := 500
}
