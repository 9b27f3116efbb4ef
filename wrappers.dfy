/** Option and Result values used for the handlers' success and error outcomes. */
module Wrappers {

  datatype Option<+T> = None | Some(value: T)

  datatype Result<+R, +E> = Success(value: R) | Failure(error: E)

  /** The error half of an HTTP response: a status code and the JSON body's
      "error" field, with the optional "details" field that only the calendar
      handler fills in. */
  datatype HttpError = HttpError(status: nat, error: string, details: Option<string>)

  function ClientError(message: string): HttpError
  {
    HttpError(400, message, None)
  }
}
