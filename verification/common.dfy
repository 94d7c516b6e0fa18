/** Shared vocabulary of the backend and the client pages: optional values, the
    outcome of a request handler, the error responses the handlers send, and the
    identifiers and instants the records refer to. */
module Common {

  datatype Option<+T> = None | Some(value: T) {
    /** The value, or `d` when absent (a schema default, a missing field). */
    function GetOr(d: T): T {
      match this
      case Some(v) => v
      case None => d
    }
  }

  /** What a request handler answers: a result, or one of its error responses. */
  datatype Result<+T> = Ok(value: T) | Err(error: Error)

  /** The error responses of the route handlers, with the HTTP status each is sent with. */
  datatype Error =
    | NotFound            // 404: the booking, car or notification named in the URL is absent
    | AccessDenied        // 403 "Access denied": role or ownership check failed
    | NotAuthorized       // 401 "User not authorized": notification owned by someone else
    | PleaseAuthenticate  // 401 "Please authenticate.": the auth guard rejected the request
    | InvalidCredentials  // 401 "Invalid login credentials"
    | CarNotAvailable     // 400 "Car is not available for booking"
    | AlreadyBooked       // 400 "Car is already booked for these dates"
    | CannotCancel        // 400 "Cannot cancel this booking"
    | InvalidUpdates      // 400 "Invalid updates!"
    | ValidationFailed    // 400: the document store refused the save (schema, cast or unique index)
    | HandlerThrew        // 400: the handler threw (a property of a missing record was read) and its catch answers 400
    | ServerError         // 500: the handler threw and its catch answers 500

  function HttpStatus(e: Error): int {
    match e
    case NotFound => 404
    case AccessDenied => 403
    case NotAuthorized | PleaseAuthenticate | InvalidCredentials => 401
    case ServerError => 500
    case _ => 400
  }

  /** Instants are integer milliseconds since the epoch, as JavaScript `Date` values subtract. */
  type Ms = int

  /** Document identifiers; the store hands out fresh ones. */
  type UserId = nat
  type CarId = nat
  type BookingId = nat
  type NotificationId = nat

  /** Milliseconds in a day: 1000 * 60 * 60 * 24. */
  const DayMs: int := 86_400_000
}
