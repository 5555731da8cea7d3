/** What a controller answers: the status and the body of a `ResponseEntity`. */
module Http {
  /** `ok(value)`, `badRequest().body(map)`, a 401 or 403 from the security
      filters, and a 500 carrying the message of an uncaught exception. */
  datatype Reply<+T> =
    | Ok(value: T)
    | BadRequest(body: map<string, string>)
    | Unauthorized
    | Forbidden
    | ServerError(message: string)

  /** An error body: a map whose only key is "error". */
  function ErrorBody(message: string): map<string, string> {
    map["error" := message]
  }
}
