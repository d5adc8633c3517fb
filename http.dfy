/** What an endpoint hands back to the web framework. */
module Http {

  /** A JSON body, or the status code and detail of a raised HTTPException. */
  datatype Response<+T> = Respond(body: T) | HttpError(status: int, detail: string)
}
