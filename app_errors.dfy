// The client's error type: an application error carries a message, a machine-readable code,
// an HTTP status (400 unless given) and optional details; `handleError` turns anything thrown
// into one, keeping application errors as they are.

module AppErrors {
  import opened JsCommon

  /** The optional `details` payload; its content is opaque to the error type. */
  datatype Details = NoDetails | Details(text: string)

  datatype AppError = AppError(message: string, code: string, status: int, details: Details)

  const BadRequestCode := "BAD_REQUEST"
  const UnauthorizedCode := "UNAUTHORIZED"
  const NotFoundCode := "NOT_FOUND"
  const ValidationCode := "VALIDATION_ERROR"
  const DatabaseCode := "DATABASE_ERROR"
  const UnknownCode := "UNKNOWN_ERROR"

  const UnknownMessage := "An unknown error occurred"

  /** `new AppError(message, code, status, details)`, where an omitted status (`None`) is 400. */
  function New(message: string, code: string, status: Option<int>, details: Details): (e: AppError)
    ensures e.message == message && e.code == code && e.details == details
    ensures status.None? ==> e.status == 400
    ensures status.Some? ==> e.status == status.value
  {
    AppError(message, code, if status.Some? then status.value else 400, details)
  }

  function BadRequest(message: string, details: Details): (e: AppError)
    ensures e == AppError(message, BadRequestCode, 400, details)
  {
    New(message, BadRequestCode, Some(400), details)
  }

  /** `AppError.Unauthorized`, whose message defaults to "Unauthorized"; it never carries details. */
  function Unauthorized(message: Option<string>): (e: AppError)
    ensures e.code == UnauthorizedCode && e.status == 401 && e.details == NoDetails
    ensures e.message == (if message.Some? then message.value else "Unauthorized")
  {
    New(if message.Some? then message.value else "Unauthorized", UnauthorizedCode, Some(401), NoDetails)
  }

  function NotFound(message: string): (e: AppError)
    ensures e == AppError(message, NotFoundCode, 404, NoDetails)
  {
    New(message, NotFoundCode, Some(404), NoDetails)
  }

  function ValidationError(message: string, details: Details): (e: AppError)
    ensures e == AppError(message, ValidationCode, 422, details)
  {
    New(message, ValidationCode, Some(422), details)
  }

  function DatabaseError(message: string, details: Details): (e: AppError)
    ensures e == AppError(message, DatabaseCode, 500, details)
  {
    New(message, DatabaseCode, Some(500), details)
  }

  /** What can be thrown: an application error, another `Error` (with its message), or any other value. */
  datatype Thrown = ThrownAppError(error: AppError) | ThrownError(message: string) | ThrownValue

  /**
   * `handleError`: an application error is returned unchanged; any other `Error` becomes an
   * unknown error with status 500 and its own message; anything else gets the generic message.
   */
  function HandleError(t: Thrown): (e: AppError)
    ensures t.ThrownAppError? ==> e == t.error
    ensures !t.ThrownAppError? ==> e.code == UnknownCode && e.status == 500 && e.details == NoDetails
    ensures t.ThrownError? ==> e.message == t.message
    ensures t.ThrownValue? ==> e.message == UnknownMessage
  {
    match t
    case ThrownAppError(error) => error
    case ThrownError(message) => New(message, UnknownCode, Some(500), NoDetails)
    case ThrownValue => New(UnknownMessage, UnknownCode, Some(500), NoDetails)
  }

  /** Handling an error twice is handling it once: the second pass returns the first result unchanged. */
  lemma HandleErrorIdempotent(t: Thrown)
    ensures HandleError(ThrownAppError(HandleError(t))) == HandleError(t)
  {
  }

  /** A database error and an error of unknown origin share status 500 and are told apart only by their code. */
  lemma ServerErrorsShareStatus(message: string)
    ensures DatabaseError(message, NoDetails).status == HandleError(ThrownError(message)).status == 500
    ensures DatabaseError(message, NoDetails).code != HandleError(ThrownError(message)).code
  {
  }
}
