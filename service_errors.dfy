/**
 * What the three CRUD services raise, and how `GlobalExceptionHandler` answers each.
 */
module ServiceErrors {
  import opened Wrappers
  import H = GlobalExceptionHandler

  datatype Failure =
    | /** `jakarta.ws.rs.NotFoundException`. */
      NotFound(message: string)
    | /** `ConflictException`. */
      Conflict(message: string)
    | /** Hibernate's `IllegalArgumentException` for `findById(null)`. */
      IllegalArgument(message: string)
    | /** Bean Validation of the entity when it is persisted or flushed. */
      ConstraintViolation(violations: seq<string>)
    | /** Any other database error: a column overflow, a foreign key still referenced. */
      Persistence(message: string)

  /** The text of Hibernate's exception for a null primary key; its exact wording is not modelled. */
  const NULL_ID_MESSAGE := "id to load is required for loading"
  /** The text of the database error for a value wider than its column. */
  const COLUMN_OVERFLOW_MESSAGE := "could not execute statement: value too long for column"
  /** The text of the database error for deleting a row that is still referenced. */
  const REFERENCED_ROW_MESSAGE := "could not execute statement: referential integrity constraint violation"

  /** The exception the handler receives for a failure. */
  function ToException(f: Failure): (e: H.Exception)
    ensures f.ConstraintViolation? ==> e.violations == f.violations
    ensures !f.ConstraintViolation? ==> e.message == Some(f.message)
  {
    match f
    case NotFound(m) => H.Exception({H.NotFound}, Some(m), [])
    case Conflict(m) => H.Exception({H.Conflict}, Some(m), [])
    case IllegalArgument(m) => H.Exception({H.IllegalArgument}, Some(m), [])
    case ConstraintViolation(vs) => H.Exception({H.ConstraintViolation}, None, vs)
    case Persistence(m) => H.Exception({}, Some(m), [])
  }

  /** The HTTP status of every service failure, and the details a client sees. */
  lemma {:induction false} FailureResponse(f: Failure, profile: Option<string>)
    ensures var r := H.ToResponse(ToException(f), profile);
            && r.status == (match f
                            case NotFound(_) => 404
                            case Conflict(_) => 409
                            case IllegalArgument(_) => 400
                            case ConstraintViolation(_) => 400
                            case Persistence(_) => 500)
            && (f.NotFound? || f.Conflict? || f.IllegalArgument? ==> r.entity.details == Some(f.message))
            && (f.Persistence? && profile.GetOr("dev") != "dev" ==> r.entity.details == Some(H.GENERIC_ERROR_MESSAGE))
  {
  }
}
