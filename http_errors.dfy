/** The framework's HTTP exception, shared by the routes that raise it and the handler that answers it. */
module HttpErrors {
  /** `HTTPException`: status code and detail. */
  datatype HttpError = HttpError(statusCode: int, detail: string)
}
