/** The answers the backend's route handlers give: a JSON value with status
    200, or one of the error replies below with its status code and message. */
module Http {
  import opened Js

  /** A document's `_id`, as it appears in route parameters, bodies and token claims. */
  type Id = string

  datatype Error =
    | Unauthenticated          // `protect`: no bearer token, a bad signature or an expired token
    | AdminRequired            // `admin`: the caller's role is not 'admin'
    | NotAdmin                 // the inline role check of the user-management routes
    | InvalidInput             // express-validator rejected the body
    | MissingFields(fields: seq<string>)
    | InvalidImage
    | InvalidPrice
    | EventNotFound
    | EventIdRequired
    | EmailExists
    | UnknownEmail             // login: no user with that email
    | IncorrectPassword
    | UserNotFound             // `/me`: the token's subject is gone
    | InvalidRole              // a role outside the schema's enum (corrected role update only)
    | ServerError              // an exception caught by the handler's try/catch

  datatype Response<T> = Ok(value: T) | Fail(error: Error)

  function Status(e: Error): (code: int)
    ensures code in {400, 401, 403, 404, 500}
    ensures code == 403 <==> e.AdminRequired? || e.NotAdmin?
    ensures code == 404 <==> e.EventNotFound? || e.UserNotFound?
  {
    match e
    case Unauthenticated => 401
    case AdminRequired => 403
    case NotAdmin => 403
    case EventNotFound => 404
    case UserNotFound => 404
    case ServerError => 500
    case _ => 400
  }

  /** The `msg`/`error` text of each reply. The middleware's own wording is not
      part of this model, and express-validator answers with its error list. */
  function Message(e: Error): string
  {
    match e
    case Unauthenticated => ""
    case AdminRequired => ""
    case NotAdmin => "Unauthorized"
    case InvalidInput => "Invalid value"
    case MissingFields(fs) => "Missing required fields: " + Join(fs, ", ")
    case InvalidImage => "Invalid image format. Must be base64 encoded image."
    case InvalidPrice => "Price must be a valid number"
    case EventNotFound => "Event not found"
    case EventIdRequired => "Event ID is required"
    case EmailExists => "Email already exists"
    case UnknownEmail => "User not found"
    case IncorrectPassword => "Incorrect password"
    case UserNotFound => "User not found"
    case InvalidRole => "Invalid role"
    case ServerError => "Server error"
  }
}
