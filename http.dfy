/**
 * What the API handlers answer: a value, or the `HTTPException` they raise, with its status
 * code and detail text.
 */
module Http {
  datatype HttpError = HttpError(status: int, detail: string)

  datatype Response<+T> = Success(value: T) | Failure(error: HttpError)
}
