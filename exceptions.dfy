/** The API's exception taxonomy and the JSON error envelope its handlers send: one fixed
    (code, status) pair per exception class, the NotFound message rule, and the four
    handlers registered for API exceptions, request-validation errors, database errors
    and everything else. */
module Exceptions {
  import opened Wrappers
  import opened PyValue
  import PyText

  datatype Kind = Base | Authentication | Authorization | Validation | NotFound | Conflict | RateLimit | Database

  /** An instance of `APIException` or one of its subclasses. */
  datatype ApiError = ApiError(kind: Kind, message: string, code: string, statusCode: int, details: Dict)

  /** Everything the modelled code can raise. */
  datatype Raised =
    | Api(error: ApiError)
      /** the authentication service's own `AuthenticationError`, a plain `Exception` */
    | ServiceAuthError(message: string)
      /** `fastapi.HTTPException` */
    | HttpError(statusCode: int, detail: string)
      /** pydantic's `RequestValidationError` */
    | RequestValidation(issues: seq<ValidationIssue>)
      /** `SQLAlchemyError`, by its text */
    | DatabaseFailure(text: string)
      /** any other exception, by class name */
    | Other(name: string)

  /** The error code each class passes to `APIException.__init__`. */
  function CodeOf(k: Kind): string {
    match k
    case Base => "API_ERROR"
    case Authentication => "AUTHENTICATION_ERROR"
    case Authorization => "AUTHORIZATION_ERROR"
    case Validation => "VALIDATION_ERROR"
    case NotFound => "NOT_FOUND"
    case Conflict => "CONFLICT_ERROR"
    case RateLimit => "RATE_LIMIT_EXCEEDED"
    case Database => "DATABASE_ERROR"
  }

  /** The HTTP status each class passes to `APIException.__init__`. */
  function StatusOf(k: Kind): int {
    match k
    case Base => 500
    case Authentication => 401
    case Authorization => 403
    case Validation => 400
    case NotFound => 404
    case Conflict => 409
    case RateLimit => 429
    case Database => 500
  }

  /** An exception whose code and status are the ones its class fixes. */
  predicate Canonical(e: ApiError) {
    e.code == CodeOf(e.kind) && e.statusCode == StatusOf(e.kind)
  }

  /** `APIException(message, code, status_code, details)`; `details or {}`. */
  function ApiException(message: string, code: string := "API_ERROR", statusCode: int := 500,
                        details: Option<Dict> := None): (e: ApiError)
    ensures e.kind == Base && e.message == message && e.code == code && e.statusCode == statusCode
    ensures details.Some? ==> e.details == details.value
    ensures details.None? ==> e.details == map[]
  {
    ApiError(Base, message, code, statusCode, details.GetOr(map[]))
  }

  /** One of the subclasses that take a message and optional details. */
  function Subclass(k: Kind, message: string, details: Option<Dict>): (e: ApiError)
    requires k != Base && k != NotFound
    ensures e.kind == k && Canonical(e) && e.message == message
    ensures e.details == details.GetOr(map[])
  {
    ApiError(k, message, CodeOf(k), StatusOf(k), details.GetOr(map[]))
  }

  function AuthenticationError(message: string := "Authentication failed", details: Option<Dict> := None): ApiError {
    Subclass(Authentication, message, details)
  }

  function AuthorizationError(message: string := "Permission denied", details: Option<Dict> := None): ApiError {
    Subclass(Authorization, message, details)
  }

  function ValidationError(message: string, details: Option<Dict> := None): ApiError {
    Subclass(Validation, message, details)
  }

  function ConflictError(message: string, details: Option<Dict> := None): ApiError {
    Subclass(Conflict, message, details)
  }

  function RateLimitError(message: string := "Rate limit exceeded", details: Option<Dict> := None): ApiError {
    Subclass(RateLimit, message, details)
  }

  function DatabaseError(message: string := "Database operation failed", details: Option<Dict> := None): ApiError {
    Subclass(Database, message, details)
  }

  /** `NotFoundError(resource, identifier)`: "<resource> not found", with ": <identifier>"
      appended only for a truthy identifier, which the details also carry as a string. */
  function NotFoundError(resource: string, identifier: Scalar := VNone): (e: ApiError)
    ensures e.kind == NotFound && Canonical(e)
    ensures PyText.StartsWith(e.message, resource + " not found")
    ensures Truthy(identifier) <==> e.message != resource + " not found"
    ensures e.details.Keys == {"resource", "identifier"} && e.details["resource"] == VStr(resource)
    ensures e.details["identifier"] == if Truthy(identifier) then VStr(Str(identifier)) else VNone
  {
    var base := resource + " not found";
    var tail := if Truthy(identifier) then ": " + Str(identifier) else "";
    PyText.ConcatSplits(base, tail);
    ApiError(NotFound, base + tail, "NOT_FOUND", 404,
      map["resource" := VStr(resource), "identifier" := if Truthy(identifier) then VStr(Str(identifier)) else VNone])
  }

  /** The identifier in a NotFound message reads back: the text after "<resource> not found: "
      is `str(identifier)`, which for a string is the string and for an int parses back. */
  lemma NotFoundIdentifierReadsBack(resource: string, identifier: Scalar)
    requires Truthy(identifier)
    ensures var e := NotFoundError(resource, identifier);
            var n := |resource + " not found: "|;
            n <= |e.message| && e.message[..n] == resource + " not found: " && e.message[n..] == Str(identifier)
            && (identifier.VStr? ==> e.message[n..] == identifier.s)
            && (identifier.VInt? ==> PyText.ParseInt(e.message[n..]) == Some(identifier.i))
  {
    var e := NotFoundError(resource, identifier);
    var p := resource + " not found: ";
    var str := Str(identifier);
    assert e.message == resource + " not found" + (": " + str);
    assert resource + " not found" + (": " + str) == p + str;
    PyText.ConcatSplits(p, str);
  }

  /** Every subclass built with its own constructor carries its class's fixed pair, and the
      pairs tell the classes apart except where two classes share status 500. */
  lemma ClassesFixCodeAndStatus(message: string, details: Option<Dict>, resource: string, id: Scalar)
    ensures Canonical(AuthenticationError(message, details)) && AuthenticationError(message, details).statusCode == 401
    ensures Canonical(AuthorizationError(message, details)) && AuthorizationError(message, details).statusCode == 403
    ensures Canonical(ValidationError(message, details)) && ValidationError(message, details).statusCode == 400
    ensures Canonical(NotFoundError(resource, id)) && NotFoundError(resource, id).statusCode == 404
    ensures Canonical(ConflictError(message, details)) && ConflictError(message, details).statusCode == 409
    ensures Canonical(RateLimitError(message, details)) && RateLimitError(message, details).statusCode == 429
    ensures Canonical(DatabaseError(message, details)) && DatabaseError(message, details).statusCode == 500
    ensures Canonical(ApiException(message)) && ApiException(message).statusCode == 500
    ensures forall k1: Kind, k2: Kind :: CodeOf(k1) == CodeOf(k2) ==> k1 == k2
  {
    CodesDistinct();
  }

  /** No two classes share an error code. */
  lemma CodesDistinct()
    ensures forall k1: Kind, k2: Kind :: CodeOf(k1) == CodeOf(k2) ==> k1 == k2
  {
    forall k1: Kind, k2: Kind | CodeOf(k1) == CodeOf(k2) ensures k1 == k2 {
      match k1
      case Base => assert CodeOf(k1)[0] == 'A' && CodeOf(k1)[1] == 'P';
      case Authentication => assert CodeOf(k1)[0] == 'A' && CodeOf(k1)[4] == 'E';
      case Authorization => assert CodeOf(k1)[0] == 'A' && CodeOf(k1)[4] == 'O';
      case Validation => assert CodeOf(k1)[0] == 'V';
      case NotFound => assert CodeOf(k1)[0] == 'N';
      case Conflict => assert CodeOf(k1)[0] == 'C';
      case RateLimit => assert CodeOf(k1)[0] == 'R';
      case Database => assert CodeOf(k1)[0] == 'D';
    }
  }

  // ---------------------------------------------------------------------------
  // the error envelope

  /** `{"error": {...}}`'s inner dictionary. */
  function ErrorOf(r: Dict): Dict {
    if "error" in r && r["error"].VDict? then r["error"].entries else map[]
  }

  /** `create_error_response`: the request id is generated only when none is given, the
      timestamp is the ISO form followed by "Z", the path is None without a request, and
      `details` is present exactly when the given details are non-empty. The status code is
      only logged. */
  function CreateErrorResponse(path: Option<string>, message: string, code: string,
                               details: Option<Dict>, requestId: Option<string>,
                               freshId: string, isoNow: string): (r: Dict)
    ensures r.Keys == {"error"} && r["error"].VDict?
    ensures var e := ErrorOf(r);
            Get(e, "code") == VStr(code) && Get(e, "message") == VStr(message)
            && Get(e, "timestamp") == VStr(isoNow + "Z") && Get(e, "path") == OptStr(path)
            && Get(e, "request_id") == VStr(if TruthyStr(requestId) then requestId.value else freshId)
    ensures var e := ErrorOf(r);
            ("details" in e <==> details.Some? && details.value != map[])
            && ("details" in e ==> Get(e, "details") == VDict(details.value))
            && e.Keys - {"details"} == {"code", "message", "timestamp", "request_id", "path"}
  {
    var id := if TruthyStr(requestId) then requestId.value else freshId;
    var e := map["code" := VStr(code), "message" := VStr(message), "timestamp" := VStr(isoNow + "Z"),
                 "request_id" := VStr(id), "path" := OptStr(path)];
    var e' := if details.Some? && details.value != map[] then e["details" := VDict(details.value)] else e;
    map["error" := VDict(e')]
  }

  datatype JsonResponse = JsonResponse(statusCode: int, content: Dict)

  /** `getattr(request.state, 'request_id', str(uuid.uuid4()))`. */
  function StateRequestId(stateId: Option<string>, freshId: string): string {
    stateId.GetOr(freshId)
  }

  /** `api_exception_handler`: the exception's own status, code, message and details. */
  function ApiExceptionHandler(stateId: Option<string>, path: string, exc: ApiError,
                               freshIds: (string, string), isoNow: string): (r: JsonResponse)
    ensures r.statusCode == exc.statusCode
    ensures Get(ErrorOf(r.content), "code") == VStr(exc.code) && Get(ErrorOf(r.content), "message") == VStr(exc.message)
    ensures "details" in ErrorOf(r.content) <==> exc.details != map[]
  {
    JsonResponse(exc.statusCode,
      CreateErrorResponse(Some(path), exc.message, exc.code, Some(exc.details),
                          Some(StateRequestId(stateId, freshIds.0)), freshIds.1, isoNow))
  }

  /** One pydantic error: its location path, message, type and optional input. */
  datatype ValidationIssue = ValidationIssue(loc: seq<Scalar>, msg: string, errorType: string, input: Value)

  /** `" -> ".join(str(loc) for loc in error["loc"])`. */
  function FieldPath(loc: seq<Scalar>): string {
    PyText.Join(seq(|loc|, i requires 0 <= i < |loc| => Str(loc[i])), " -> ")
  }

  /** The dictionary the validation handler appends for one error. */
  function IssueEntry(e: ValidationIssue): Value {
    VDict(map["field" := VStr(FieldPath(e.loc)), "message" := VStr(e.msg),
              "type" := VStr(e.errorType), "input" := e.input])
  }

  /** The loop of `validation_exception_handler`: one entry per error, in order. */
  method ValidationDetails(issues: seq<ValidationIssue>) returns (details: seq<Value>)
    ensures |details| == |issues|
    ensures forall k :: 0 <= k < |issues| ==> details[k] == IssueEntry(issues[k])
  {
    details := [];
    var i := 0;
    while i < |issues|
      invariant 0 <= i <= |issues|
      invariant |details| == i
      invariant forall k :: 0 <= k < i ==> details[k] == IssueEntry(issues[k])
    {
      details := details + [IssueEntry(issues[i])];
      i := i + 1;
    }
  }

  /** `validation_exception_handler`: always 422 with VALIDATION_ERROR and a
      `validation_errors` list, which is present even when it is empty. */
  method ValidationExceptionHandler(stateId: Option<string>, path: string, issues: seq<ValidationIssue>,
                                    freshIds: (string, string), isoNow: string) returns (r: JsonResponse)
    ensures r.statusCode == 422
    ensures Get(ErrorOf(r.content), "code") == VStr("VALIDATION_ERROR")
    ensures Get(ErrorOf(r.content), "message") == VStr("Request validation failed")
    ensures var e := ErrorOf(r.content);
            "details" in e && Get(e, "details") == VDict(map["validation_errors" := VList(seq(|issues|, k requires 0 <= k < |issues| => IssueEntry(issues[k])))])
  {
    var entries := ValidationDetails(issues);
    assert entries == seq(|issues|, k requires 0 <= k < |issues| => IssueEntry(issues[k]));
    var details := map["validation_errors" := VList(entries)];
    assert "validation_errors" in details;
    r := JsonResponse(422, CreateErrorResponse(Some(path), "Request validation failed", "VALIDATION_ERROR",
                                               Some(details), Some(StateRequestId(stateId, freshIds.0)),
                                               freshIds.1, isoNow));
  }

  /** `database_exception_handler`: 500, DATABASE_ERROR, the exception's text as details. */
  function DatabaseExceptionHandler(stateId: Option<string>, path: string, text: string,
                                    freshIds: (string, string), isoNow: string): (r: JsonResponse)
    ensures r.statusCode == 500
    ensures Get(ErrorOf(r.content), "code") == VStr("DATABASE_ERROR")
    ensures Get(ErrorOf(r.content), "message") == VStr("Database operation failed")
    ensures var e := ErrorOf(r.content); "details" in e && Get(e, "details") == VDict(map["database_error" := VStr(text)])
  {
    var details := map["database_error" := VStr(text)];
    assert "database_error" in details;
    JsonResponse(500, CreateErrorResponse(Some(path), "Database operation failed", "DATABASE_ERROR",
                                          Some(details), Some(StateRequestId(stateId, freshIds.0)),
                                          freshIds.1, isoNow))
  }

  /** `general_exception_handler`: 500, INTERNAL_SERVER_ERROR, never any details. */
  function GeneralExceptionHandler(stateId: Option<string>, path: string,
                                   freshIds: (string, string), isoNow: string): (r: JsonResponse)
    ensures r.statusCode == 500
    ensures Get(ErrorOf(r.content), "code") == VStr("INTERNAL_SERVER_ERROR")
    ensures Get(ErrorOf(r.content), "message") == VStr("Internal server error")
    ensures "details" !in ErrorOf(r.content)
  {
    JsonResponse(500, CreateErrorResponse(Some(path), "Internal server error", "INTERNAL_SERVER_ERROR",
                                          None, Some(StateRequestId(stateId, freshIds.0)), freshIds.1, isoNow))
  }

  /** The handler `setup_exception_handlers` selects for an exception raised by an endpoint.
      FastAPI's own handler for `HTTPException` answers those; that is the None case. */
  method HandleException(stateId: Option<string>, path: string, raised: Raised,
                         freshIds: (string, string), isoNow: string) returns (r: Option<JsonResponse>)
    ensures r.None? <==> raised.HttpError?
    ensures raised.Api? ==> r == Some(ApiExceptionHandler(stateId, path, raised.error, freshIds, isoNow))
    ensures raised.RequestValidation? ==>
              && r.Some? && r.value.statusCode == 422
              && Get(ErrorOf(r.value.content), "code") == VStr("VALIDATION_ERROR")
              && Get(ErrorOf(r.value.content), "message") == VStr("Request validation failed")
              && var e := ErrorOf(r.value.content);
                 "details" in e && Get(e, "details") == VDict(map["validation_errors" := VList(seq(|raised.issues|, k requires 0 <= k < |raised.issues| => IssueEntry(raised.issues[k])))])
    ensures raised.DatabaseFailure? ==> r == Some(DatabaseExceptionHandler(stateId, path, raised.text, freshIds, isoNow))
    ensures raised.ServiceAuthError? || raised.Other? ==> r == Some(GeneralExceptionHandler(stateId, path, freshIds, isoNow))
  {
    match raised
    case Api(e) => r := Some(ApiExceptionHandler(stateId, path, e, freshIds, isoNow));
    case RequestValidation(issues) =>
      var v := ValidationExceptionHandler(stateId, path, issues, freshIds, isoNow);
      r := Some(v);
    case DatabaseFailure(text) => r := Some(DatabaseExceptionHandler(stateId, path, text, freshIds, isoNow));
    case HttpError(_, _) => r := None;
    case ServiceAuthError(_) => r := Some(GeneralExceptionHandler(stateId, path, freshIds, isoNow));
    case Other(_) => r := Some(GeneralExceptionHandler(stateId, path, freshIds, isoNow));
  }

  /** The request id in every envelope is the one the logging middleware stored, when it
      stored a non-empty one; a fresh id is used only otherwise. */
  lemma EnvelopeKeepsStoredRequestId(id: string, path: string, exc: ApiError, freshIds: (string, string), isoNow: string)
    requires id != ""
    ensures ErrorOf(ApiExceptionHandler(Some(id), path, exc, freshIds, isoNow).content)["request_id"] == VStr(id)
    ensures ErrorOf(GeneralExceptionHandler(Some(id), path, freshIds, isoNow).content)["request_id"] == VStr(id)
  {
  }
}
