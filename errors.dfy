/** The error a request can end with: the `HttpError` the controller throws,
    or any other exception, which the error handler answers with status 500
    and the exception's message. */
module Errors {

  datatype HttpError = HttpError(status: nat, message: string)

  /** The status the error handler uses for an exception without one. */
  const InternalStatus: nat := 500
}
