/**
 * `GlobalExceptionHandler`: the JAX-RS exception mapper that turns every exception a
 * resource lets escape into an HTTP status and an `ErrorResponse` body.
 */
module GlobalExceptionHandler {
  import opened Wrappers
  import opened Text

  /** The exception classes `toResponse` tests with `instanceof`. */
  datatype Handled = NotFound | Conflict | IllegalArgument | ConstraintViolation

  /**
   * A thrown exception: the handled classes it is an instance of (none for any other
   * exception), what `getMessage()` returns, and, for a constraint violation, the messages
   * of its violations.
   */
  datatype Exception = Exception(kinds: set<Handled>, message: Option<string>, violations: seq<string>)

  /** `ErrorResponse` without its wall-clock `timestamp`. */
  datatype ErrorResponse = ErrorResponse(status: int, message: string, details: Option<string>)

  datatype Response = Response(status: int, entity: ErrorResponse)

  const GENERIC_ERROR_MESSAGE := "An unexpected error occurred. Please try again later."

  function Reply(status: int, message: string, details: Option<string>): (r: Response)
    ensures r.status == r.entity.status == status
  {
    Response(status, ErrorResponse(status, message, details))
  }

  /** `handleGenericException`: the active profile is "dev" unless configured otherwise. */
  function GenericDetails(e: Exception, profile: Option<string>): (d: Option<string>)
    ensures profile.None? || profile == Some("dev") ==> d == e.message
    ensures profile.Some? && profile != Some("dev") ==> d == Some(GENERIC_ERROR_MESSAGE)
  {
    if profile.GetOr("dev") == "dev" then e.message else Some(GENERIC_ERROR_MESSAGE)
  }

  /** `toResponse`, with the `quarkus.profile` setting passed in. */
  function ToResponse(e: Exception, profile: Option<string>): (r: Response)
    ensures r.status == r.entity.status
    ensures NotFound in e.kinds ==> r == Reply(404, "Resource not found", e.message)
    ensures NotFound !in e.kinds && Conflict in e.kinds ==> r == Reply(409, "Conflict", e.message)
    ensures NotFound !in e.kinds && Conflict !in e.kinds && IllegalArgument in e.kinds ==>
              r == Reply(400, "Invalid request", e.message)
    ensures NotFound !in e.kinds && Conflict !in e.kinds && IllegalArgument !in e.kinds
            && ConstraintViolation in e.kinds ==>
              r == Reply(400, "Validation failed", Some(Join(e.violations, ", ")))
    ensures e.kinds == {} ==> r == Reply(500, "Internal server error", GenericDetails(e, profile))
  {
    if NotFound in e.kinds then
      Reply(404, "Resource not found", e.message)
    else if Conflict in e.kinds then
      Reply(409, "Conflict", e.message)
    else if IllegalArgument in e.kinds then
      Reply(400, "Invalid request", e.message)
    else if ConstraintViolation in e.kinds then
      Reply(400, "Validation failed", Some(Join(e.violations, ", ")))
    else
      Reply(500, "Internal server error", GenericDetails(e, profile))
  }

  /** Outside the dev profile an unhandled exception's own message never reaches the client. */
  lemma {:induction false} ProductionHidesInternalMessages(e: Exception, profile: string)
    requires e.kinds == {} && profile != "dev"
    ensures ToResponse(e, Some(profile)).entity.details == Some(GENERIC_ERROR_MESSAGE)
    ensures ToResponse(e, Some(profile)).status == 500
  {
  }

  /** Every status the handler produces is one of the four it names. */
  lemma {:induction false} StatusIsOneOfFour(e: Exception, profile: Option<string>)
    ensures ToResponse(e, profile).status in {400, 404, 409, 500}
  {
  }
}
