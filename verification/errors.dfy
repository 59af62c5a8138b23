/** The backend's error classes and the global error handler that turns a thrown
    value into an HTTP response. */
module Errors {
  import opened Optional
  import opened Text

  datatype ErrorClass =
    | Base | Validation | Authentication | Authorization | NotFound | Conflict | Database | RateLimit | WebAuthn

  /** An instance of one of the classes. `retryAfter` is only set on rate-limit
      errors. */
  datatype AppError = AppError(
    kind: ErrorClass, name: string, message: string, statusCode: int, retryAfter: Option<int>)

  /** The status each subclass fixes in its constructor. */
  function ClassStatus(c: ErrorClass): int
    requires c != Base
  {
    match c
    case Validation => 400
    case Authentication => 401
    case Authorization => 403
    case NotFound => 404
    case Conflict => 409
    case Database => 500
    case RateLimit => 429
    case WebAuthn => 400
  }

  /** `new AppError(message, statusCode = 500)`. */
  function NewAppError(message: string, statusCode: Option<int>): (r: AppError)
    ensures r.kind == Base && r.name == "AppError" && r.message == message
    ensures statusCode.None? ==> r.statusCode == 500
    ensures statusCode.Some? ==> r.statusCode == statusCode.value
  {
    AppError(Base, "AppError", message, statusCode.GetOr(500), None)
  }

  function NewValidationError(message: string): (r: AppError)
    ensures r.kind == Validation && r.message == message && r.statusCode == ClassStatus(Validation)
  {
    AppError(Validation, "ValidationError", message, 400, None)
  }

  function NewAuthenticationError(message: Option<string>): (r: AppError)
    ensures r.kind == Authentication && r.statusCode == ClassStatus(Authentication)
    ensures r.message == message.GetOr("Authentication failed")
  {
    AppError(Authentication, "AuthenticationError", message.GetOr("Authentication failed"), 401, None)
  }

  function NewAuthorizationError(message: Option<string>): (r: AppError)
    ensures r.kind == Authorization && r.statusCode == ClassStatus(Authorization)
    ensures r.message == message.GetOr("Insufficient permissions")
  {
    AppError(Authorization, "AuthorizationError", message.GetOr("Insufficient permissions"), 403, None)
  }

  /** `new NotFoundError(resource = 'Resource', identifier = null)`: the identifier is
      quoted into the message only when truthy. */
  function NewNotFoundError(resource: Option<string>, identifier: Option<string>): (r: AppError)
    ensures r.kind == NotFound && r.statusCode == ClassStatus(NotFound)
    ensures StartsWith(r.message, resource.GetOr("Resource"))
    ensures TruthyString(identifier) ==> Contains(r.message, "'" + identifier.value + "'")
    ensures !TruthyString(identifier) ==> r.message == resource.GetOr("Resource") + " not found"
  {
    var name := resource.GetOr("Resource");
    if TruthyString(identifier) then
      var quoted := "'" + identifier.value + "'";
      var m := name + " with identifier " + quoted + " not found";
      assert StartsWith(m, name) by { assert m[..|name|] == name; }
      assert OccursAt(m, quoted, |name| + 17) by {
        assert m[|name| + 17..|name| + 17 + |quoted|] == quoted;
      }
      ContainsAt(m, quoted, |name| + 17);
      AppError(NotFound, "NotFoundError", m, 404, None)
    else
      assert StartsWith(name + " not found", name) by { assert (name + " not found")[..|name|] == name; }
      AppError(NotFound, "NotFoundError", name + " not found", 404, None)
  }

  function NewConflictError(message: string): (r: AppError)
    ensures r.kind == Conflict && r.message == message && r.statusCode == ClassStatus(Conflict)
  {
    AppError(Conflict, "ConflictError", message, 409, None)
  }

  function NewDatabaseError(message: string): (r: AppError)
    ensures r.kind == Database && r.message == message && r.statusCode == ClassStatus(Database)
  {
    AppError(Database, "DatabaseError", message, 500, None)
  }

  const RateLimitMessage: string := "Too many requests, please try again later"

  /** `new RateLimitError(retryAfter = 60)`: the message is fixed. */
  function NewRateLimitError(retryAfter: Option<int>): (r: AppError)
    ensures r.kind == RateLimit && r.statusCode == ClassStatus(RateLimit)
    ensures r.message == RateLimitMessage
    ensures r.retryAfter == Some(retryAfter.GetOr(60))
  {
    AppError(RateLimit, "RateLimitError", RateLimitMessage, 429, Some(retryAfter.GetOr(60)))
  }

  function NewWebAuthnError(message: string): (r: AppError)
    ensures r.kind == WebAuthn && r.message == message && r.statusCode == ClassStatus(WebAuthn)
  {
    AppError(WebAuthn, "WebAuthnError", message, 400, None)
  }

  /** Every error built by a subclass constructor carries a client or server error
      status, and only a database error gets 500. */
  lemma SubclassStatuses(c: ErrorClass)
    requires c != Base
    ensures 400 <= ClassStatus(c) <= 500
    ensures ClassStatus(c) == 500 <==> c == Database
    ensures ClassStatus(c) == 400 <==> c == Validation || c == WebAuthn
  {
  }

  // ---------------------------------------------------------------------------
  // The global handler

  /** A thrown value: one of the classes above, or anything else with the fields
      the handler reads (`validation`, the PostgreSQL `code`, `statusCode`). */
  datatype Thrown =
    | Raised(error: AppError)
    | Foreign(validation: bool, code: Option<string>, statusCode: Option<int>, message: string)

  /** What is sent: the status, the `success` flag, the `error` label, the message
      and whether a stack trace is attached. */
  datatype Response = Response(status: int, success: bool, error: string, message: string, hasStack: bool)

  const GenericMessage: string := "An unexpected error occurred"

  /** A PostgreSQL integrity-constraint code (class 23). */
  predicate IntegrityCode(code: Option<string>) {
    TruthyString(code) && StartsWith(code.value, "23")
  }

  /** `errorHandler`: the first rule that applies decides the response. */
  function Handle(thrown: Thrown, production: bool): (r: Response)
    ensures !r.success
    ensures thrown.Raised? ==> r.status == thrown.error.statusCode && r.message == thrown.error.message
    ensures thrown.Raised? ==> r.hasStack == !production
    ensures thrown.Foreign? && thrown.validation ==> r.status == 400
    ensures r.status == 500 && thrown.Foreign? ==> r.error == "InternalServerError"
    ensures r.status == 500 && thrown.Foreign? && production ==> r.message == GenericMessage
    ensures r.status == 500 && thrown.Foreign? && !production ==> r.message == thrown.message
    ensures thrown.Foreign? && r.hasStack ==> r.status == 500 && !production
    ensures thrown.Foreign? && production ==> !r.hasStack
  {
    match thrown
    case Raised(e) => Response(e.statusCode, false, e.name, e.message, !production)
    case Foreign(validation, code, statusCode, message) =>
      if validation then Response(400, false, "ValidationError", "Request validation failed", false)
      else if IntegrityCode(code) && code.value == "23505" then
        Response(409, false, "ConflictError", "A record with this value already exists", false)
      else if IntegrityCode(code) && code.value == "23503" then
        Response(400, false, "ValidationError", "Referenced record does not exist", false)
      else if statusCode == Some(429) then
        Response(429, false, "RateLimitError", if message != "" then message else "Too many requests", false)
      else
        Response(500, false, "InternalServerError", if production then GenericMessage else message, !production)
  }

  /** An error built by a subclass is answered with its class's status, whatever
      else is true of it. */
  lemma ClassDecidesStatus(e: AppError, production: bool)
    requires e.kind != Base && e.statusCode == ClassStatus(e.kind)
    ensures Handle(Raised(e), production).status == ClassStatus(e.kind)
  {
  }

  /** A request-validation failure wins over a database code and a 429 status. */
  lemma ValidationFirst(code: Option<string>, statusCode: Option<int>, message: string, production: bool)
    ensures Handle(Foreign(true, code, statusCode, message), production).status == 400
    ensures Handle(Foreign(true, code, statusCode, message), production).message == "Request validation failed"
  {
  }

  /** Integrity codes other than unique (23505) and foreign-key (23503) violations
      fall through to the rate-limit and fallback rules. */
  lemma OtherIntegrityCodesFallThrough(code: string, statusCode: Option<int>, message: string, production: bool)
    requires code != "23505" && code != "23503"
    ensures Handle(Foreign(false, Some(code), statusCode, message), production)
         == Handle(Foreign(false, None, statusCode, message), production)
  {
  }

  /** A unique violation is a 409 even when the error also says 429. */
  lemma UniqueViolationBeforeRateLimit(message: string, production: bool)
    ensures Handle(Foreign(false, Some("23505"), Some(429), message), production).status == 409
  {
    assert StartsWith("23505", "23");
  }

  /** In production nothing but an application error's own message reaches the
      client: every other message is one of the handler's fixed texts or the
      error's own rate-limit message. */
  lemma ProductionHidesInternals(code: Option<string>, statusCode: Option<int>, message: string)
    requires statusCode != Some(429)
    ensures Handle(Foreign(false, code, statusCode, message), true).message
              in {GenericMessage, "A record with this value already exists", "Referenced record does not exist"}
  {
  }
}
