/**
 * How the browser's service layer sees one request to the backend through
 * axios: either the 2xx payload arrives, or the promise rejects with an error
 * that does (`error.response` set) or does not (server unreachable) carry an
 * HTTP response.
 */
module Http {

  datatype Failure =
    | HttpFailure(status: int, message: string)
    | NoResponse(message: string)

  /** The outcome of one request whose successful payload is `P`. */
  datatype Transport<P> = Delivered(data: P) | Failed(failure: Failure)

  /** How an async service function settles: a value, or the caught error thrown again. */
  datatype Settled<R> = Returned(value: R) | Rethrown(failure: Failure)
}
