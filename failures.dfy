/** The exceptions the backend services raise: an ApiException carries the HTTP
    status the exception handler answers with; any other exception is a plain
    RuntimeException that the handler turns into a 500. */
module Failures {
  datatype Failure = ApiException(message: string, status: int) | RuntimeException(message: string)

  const NotFound: int := 404
  const Conflict: int := 409
  const Unauthorized: int := 401
  const BadRequest: int := 400
  const InternalServerError: int := 500
}
