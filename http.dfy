/** The error a FastAPI endpoint raises to produce a non-2xx response. */
module Http {
  import opened Json

  /** `HTTPException(status_code, detail)`; the detail is a string or, for validation errors, an object. */
  datatype HttpException = HttpException(statusCode: int, detail: Json)
}
