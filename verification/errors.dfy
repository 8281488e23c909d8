/**
 * The errors a request can raise: the application's typed error classes,
 * schema-validation failures, and anything else thrown, which may carry a
 * storage error code.
 */
module Errors {
  import opened Wrappers

  /** The class an error is an instance of. */
  datatype ErrorKind =
    | NotFoundKind
    | BusinessRuleKind
    | ConflictKind
    | ValidationKind(issues: seq<string>)
    | OtherKind

  /**
   * A thrown error: its class, its message, and the `code` property it may
   * carry (storage errors set it; the typed classes normally do not).
   */
  datatype AppError = AppError(kind: ErrorKind, message: string, code: Option<string>)

  /** Unique constraint violation. */
  const UniqueViolation: string := "P2002"
  /** Record to update or delete does not exist. */
  const RecordNotFound: string := "P2025"
  /** Required relation missing. */
  const RelationMissing: string := "P2014"

  function NotFound(message: string): AppError {
    AppError(NotFoundKind, message, None)
  }

  function BusinessRule(message: string): AppError {
    AppError(BusinessRuleKind, message, None)
  }

  function Invalid(issues: seq<string>): AppError {
    AppError(ValidationKind(issues), "Validation failed", None)
  }

  /** A plain `Error` with no code. */
  function Plain(message: string): AppError {
    AppError(OtherKind, message, None)
  }

  /** An error raised by the storage layer with one of its error codes. */
  function Storage(code: string, message: string): AppError {
    AppError(OtherKind, message, Some(code))
  }
}

/**
 * The final error middleware: a total classification of a thrown error into
 * an HTTP status and a JSON error body.
 */
module ErrorHandler {
  import opened Wrappers
  import opened Errors

  /** What the error body carries besides its `error` field. */
  datatype Detail =
    | NoDetail
    | Details(issues: seq<string>)
    | Message(text: string)

  datatype ErrorBody = ErrorBody(error: string, detail: Detail)

  datatype ErrorResponse = ErrorResponse(status: int, body: ErrorBody)

  const InternalError: string := "Internal server error"

  /** The storage codes the handler recognises. */
  predicate IsKnownStorageCode(code: Option<string>) {
    code == Some(UniqueViolation) || code == Some(RecordNotFound) || code == Some(RelationMissing)
  }

  /**
   * Classifies `e`. The typed classes are tested first, in the order
   * NotFound, BusinessRule, Conflict, Validation; only then is a storage code
   * inspected; everything else is an internal error whose message is shown
   * unless running in production.
   */
  function Classify(e: AppError, production: bool): (r: ErrorResponse)
    ensures e.kind.NotFoundKind? ==> r == ErrorResponse(404, ErrorBody(e.message, NoDetail))
    ensures e.kind.BusinessRuleKind? ==> r == ErrorResponse(400, ErrorBody(e.message, NoDetail))
    ensures e.kind.ConflictKind? ==> r == ErrorResponse(409, ErrorBody(e.message, NoDetail))
    ensures e.kind.ValidationKind? ==>
      r == ErrorResponse(400, ErrorBody("Invalid request data", Details(e.kind.issues)))
    ensures e.kind.OtherKind? && e.code == Some(UniqueViolation) ==>
      r == ErrorResponse(409, ErrorBody("Resource already exists", NoDetail))
    ensures e.kind.OtherKind? && e.code == Some(RecordNotFound) ==>
      r == ErrorResponse(404, ErrorBody("Resource not found", NoDetail))
    ensures e.kind.OtherKind? && e.code == Some(RelationMissing) ==>
      r == ErrorResponse(400, ErrorBody("Required relation missing", NoDetail))
    ensures e.kind.OtherKind? && !IsKnownStorageCode(e.code) ==>
      r.status == 500 && r.body.error == InternalError
  {
    match e.kind
    case NotFoundKind => ErrorResponse(404, ErrorBody(e.message, NoDetail))
    case BusinessRuleKind => ErrorResponse(400, ErrorBody(e.message, NoDetail))
    case ConflictKind => ErrorResponse(409, ErrorBody(e.message, NoDetail))
    case ValidationKind(issues) => ErrorResponse(400, ErrorBody("Invalid request data", Details(issues)))
    case OtherKind =>
      if e.code == Some(UniqueViolation) then ErrorResponse(409, ErrorBody("Resource already exists", NoDetail))
      else if e.code == Some(RecordNotFound) then ErrorResponse(404, ErrorBody("Resource not found", NoDetail))
      else if e.code == Some(RelationMissing) then ErrorResponse(400, ErrorBody("Required relation missing", NoDetail))
      else ErrorResponse(500, ErrorBody(InternalError, if production then NoDetail else Message(e.message)))
  }

  /** The handler only ever answers 400, 404, 409 or 500. */
  lemma StatusesAreClientOrServerErrors(e: AppError, production: bool)
    ensures Classify(e, production).status in {400, 404, 409, 500}
  {
  }

  /** A typed error is classified by its class alone: a `code` it carries is never consulted. */
  lemma TypedErrorsIgnoreCode(k: ErrorKind, m: string, c1: Option<string>, c2: Option<string>, production: bool)
    requires !k.OtherKind?
    ensures Classify(AppError(k, m, c1), production) == Classify(AppError(k, m, c2), production)
  {
  }

  /** The answer is 500 exactly for an untyped error without a recognised storage code. */
  lemma InternalIffUnrecognised(e: AppError, production: bool)
    ensures Classify(e, production).status == 500 <==> e.kind.OtherKind? && !IsKnownStorageCode(e.code)
  {
  }

  /**
   * The production switch matters only for internal errors, and there it
   * decides exactly whether the error's own message is exposed.
   */
  lemma ProductionHidesOnlyInternalDetail(e: AppError)
    ensures Classify(e, true).status == Classify(e, false).status
    ensures Classify(e, true).status != 500 ==> Classify(e, true) == Classify(e, false)
    ensures Classify(e, true).status == 500 ==>
      Classify(e, true).body.detail == NoDetail && Classify(e, false).body.detail == Message(e.message)
  {
  }
}
