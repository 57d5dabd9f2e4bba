/** Values shared by the server routes and the client components. */
module Common {

  datatype Option<+T> = None | Some(value: T) {
    function GetOr(default: T): T {
      match this
      case Some(v) => v
      case None => default
    }
  }

  /** Database identifiers (Mongo ObjectIds), modelled as numbers handed out by a counter. */
  type UserId = nat
  type ListingId = nat
  type BookingId = nat

  /** A calendar date as a day number (days since the epoch, UTC). */
  type Day = int

  /** What a route handler answers: an HTTP status code, or nothing at all
      because the handler threw outside any try/catch (an unhandled rejection). */
  datatype Status = Http(code: nat) | Unhandled

  const OK: Status := Http(200)
  const CREATED: Status := Http(201)
  const BAD_REQUEST: Status := Http(400)
  const UNAUTHORIZED: Status := Http(401)
  const FORBIDDEN: Status := Http(403)
  const NOT_FOUND: Status := Http(404)
}
