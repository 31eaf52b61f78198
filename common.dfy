// Values shared by every collection and route: document ids, optional
// request fields and the HTTP outcome of a route handler.
module Common {

  /** A MongoDB ObjectId, drawn from a counter so that a fresh one is simply the next number. */
  type ObjectId = nat

  /** A request field or document field that may be absent (undefined or null). */
  datatype Option<+T> = None | Some(value: T)

  /** What a route answers: 200 with a payload, or one of the error statuses
      the handlers use, each with the message the handler sends. */
  datatype Response<+T> =
    | Ok(value: T)
    | BadRequest(message: string)    // 400
    | Unauthorized(message: string)  // 401
    | NotFound(message: string)      // 404
    | Conflict(message: string)      // 409
    | ServerError(message: string)   // 500

  /** The HTTP status code of a response. */
  function StatusCode<T>(r: Response<T>): nat {
    match r
    case Ok(_) => 200
    case BadRequest(_) => 400
    case Unauthorized(_) => 401
    case NotFound(_) => 404
    case Conflict(_) => 409
    case ServerError(_) => 500
  }
}
