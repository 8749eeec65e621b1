/** Values shared by every handler module: optional values and the HTTP
    error that a handler raises with `HTTPException(status_code, detail, headers)`. */
module Common {

  datatype Option<T> = None | Some(value: T)

  /** An `HTTPException` as raised by a handler: status, detail text and extra headers. */
  datatype HttpError = HttpError(status: int, detail: string, headers: map<string, string>)

  /** The outcome of a handler that either returns a value or raises an `HTTPException`. */
  datatype Result<T> = Ok(value: T) | Raised(error: HttpError)

  const HTTP_200_OK := 200
  const HTTP_201_CREATED := 201
  const HTTP_204_NO_CONTENT := 204
  const HTTP_304_NOT_MODIFIED := 304
  const HTTP_400_BAD_REQUEST := 400
  const HTTP_403_FORBIDDEN := 403
  const HTTP_404_NOT_FOUND := 404
  const HTTP_422_UNPROCESSABLE_ENTITY := 422
  const HTTP_500_INTERNAL_SERVER_ERROR := 500

  /** An `HTTPException` without extra headers. */
  function Error(status: int, detail: string): (e: HttpError)
    ensures e.status == status && e.detail == detail && e.headers == map[]
  {
    HttpError(status, detail, map[])
  }
}
