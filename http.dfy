/** The HTTP outcomes the route handlers answer with. */
module Http {
  datatype Status = Ok | BadRequest | Unauthorized | ServerError {
    /** The numeric status code sent to the client. */
    function Code(): int {
      match this
      case Ok => 200
      case BadRequest => 400
      case Unauthorized => 401
      case ServerError => 500
    }
  }
}
