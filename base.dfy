/** Values shared by every layer: optional values, fallible results, the
    errors the collaborators can report, and the HTTP status codes the
    service hands back. */
module Base {

  datatype Option<+T> = None | Some(value: T)

  /** The outcome of a call that either yields a value or fails with an error. */
  datatype Result<+T> = Ok(value: T) | Err(error: Error)

  /** A Go `error` that is not nil. */
  datatype Error =
    | NumError(func: string, num: string)   // strconv's *NumError for the input `num`
    | SqlError(message: string)             // an error raised by the database engine
    | External(detail: string)              // any other failure of the network, driver or decoder

  // net/http status codes used by the service and the handlers
  const StatusOK := 200
  const StatusNotFound := 404
  const StatusInternalServerError := 500
}
