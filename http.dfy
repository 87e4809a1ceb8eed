/** The parts of an HTTP error response the routers decide. */
module Http {
  /** FastAPI's `HTTPException`: a status, a detail, and whether a `WWW-Authenticate: Bearer` header is sent. */
  datatype HttpError = HttpError(status: int, detail: string, bearerChallenge: bool)

  const BadRequest := 400
  const Unauthorized := 401
  const NotFound := 404
  const InternalServerError := 500

  function Plain(status: int, detail: string): HttpError {
    HttpError(status, detail, false)
  }

  /** A 401 carrying `WWW-Authenticate: Bearer`, as section 3 of RFC 6750 asks of a bearer-token resource. */
  function Challenge(detail: string): HttpError {
    HttpError(Unauthorized, detail, true)
  }
}
