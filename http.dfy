/** The HTTP failures the backend raises (FastAPI's HTTPException): a status code and a detail text. */
module Http {

  datatype HttpError = HttpError(status: int, detail: string)

  const BadRequest := 400
  const Forbidden := 403
  const NotFound := 404
  const InternalError := 500
}
