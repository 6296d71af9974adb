/** Values shared by every handler: optional values, HTTP errors and the
    result of a handler, which either returns a body or raises an
    HTTPException with a status code and a detail string. */
module Http {

  datatype Option<+T> = None | Some(value: T) {

    /** The value in Some, or a default when None: an omitted parameter
        taking its declared default. */
    function GetOr(default: T): T {
      match this
      case Some(v) => v
      case None => default
    }
  }

  /** An HTTPException as the framework turns it into a response. */
  datatype HttpError = HttpError(status: int, detail: string)

  /** What a handler produces: a response body, or an error response. */
  datatype Result<+T> = Ok(value: T) | Err(error: HttpError)

  const BadRequest: int := 400
  const Unauthorized: int := 401
  const UnprocessableEntity: int := 422
  const InternalServerError: int := 500

  /** The body the framework sends for an exception no handler caught. */
  const UncaughtDetail: string := "Internal Server Error"
}
