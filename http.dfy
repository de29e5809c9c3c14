/** The HTTP errors the prediction endpoint answers with. */
module Http {
  import Json

  const BadRequest: int := 400
  const InternalServerError: int := 500
  const BadGateway: int := 502

  /** The `detail` of an error response. */
  datatype Detail =
    | Message(text: string)
      // a JSON object `{"error": error, "raw": raw}`
    | Structured(error: string, raw: Json.Value)
      // an exception the endpoint does not catch; the framework answers 500
    | Unhandled

  datatype HttpError = HttpError(status: int, detail: Detail)
}
