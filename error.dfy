/** The global exception handler (HouseCom/Error/GlobalExceptionHandler.cs): an
    ordered, first-match table from exception types to an HTTP status and a
    user-facing message, development-only diagnostics, and the JSON error reply. */
module Error {
  import opened Wrappers
  import Http

  /** The exception types the handler's switch names, and every other type by name. */
  datatype ExceptionType =
    | InvalidOperationException
    | ArgumentException
    | KeyNotFoundException
    | FileNotFoundException
    | ConcurrencyException
    | ValidationException
    | DeleteNotAllowedException
    | DeleteConstraintException
    | UnauthorizedAccessException
    | ForbiddenException
    | OtherType(name: string)

  /** An exception object: its runtime type, the types it derives from, and the
      properties the handler reads. `innerException` is the inner exception's message. */
  datatype Exception = Exception(
    runtimeType: ExceptionType,
    baseTypes: seq<ExceptionType>,
    message: string,
    stackTrace: Option<string>,
    innerException: Option<string>,
    source: Option<string>,
    targetSite: Option<string>)

  /** The type pattern `e is t`: the runtime type is t or derives from it. */
  predicate Is(e: Exception, t: ExceptionType) {
    e.runtimeType == t || t in e.baseTypes
  }

  /** Type.Name of an exception type. */
  function TypeName(t: ExceptionType): string {
    match t
    case InvalidOperationException => "InvalidOperationException"
    case ArgumentException => "ArgumentException"
    case KeyNotFoundException => "KeyNotFoundException"
    case FileNotFoundException => "FileNotFoundException"
    case ConcurrencyException => "ConcurrencyException"
    case ValidationException => "ValidationException"
    case DeleteNotAllowedException => "DeleteNotAllowedException"
    case DeleteConstraintException => "DeleteConstraintException"
    case UnauthorizedAccessException => "UnauthorizedAccessException"
    case ForbiddenException => "ForbiddenException"
    case OtherType(name) => name
  }

  /** Exception.ToString(), simplified: the short type name, ": " and the message. */
  function ErrorText(e: Exception): string {
    TypeName(e.runtimeType) + ": " + e.message
  }

  /** The status and the user-facing message one arm of the switch yields. */
  datatype Classification = Classification(status: int, message: string)

  /** One arm of the switch: a type pattern and what it yields. */
  datatype Arm = Arm(pattern: ExceptionType, result: Classification)

  /** The switch's arms, in source order. */
  const Arms: seq<Arm> := [
    Arm(InvalidOperationException, Classification(Http.BadRequest, "Invalid operation attempted")),
    Arm(ArgumentException, Classification(Http.BadRequest, "Invalid input provided")),
    Arm(KeyNotFoundException, Classification(Http.NotFound, "Requested resource not found")),
    Arm(FileNotFoundException, Classification(Http.NotFound, "Requested file not found")),
    Arm(ConcurrencyException, Classification(Http.Conflict, "The resource was modified by another user")),
    Arm(ValidationException, Classification(Http.UnprocessableEntity, "Validation failed for the request")),
    Arm(DeleteNotAllowedException, Classification(Http.MethodNotAllowed, "Delete operation not allowed for this resource")),
    Arm(DeleteConstraintException, Classification(Http.Conflict, "Cannot delete due to existing dependencies")),
    Arm(UnauthorizedAccessException, Classification(Http.Unauthorized, "Authentication required")),
    Arm(ForbiddenException, Classification(Http.Forbidden, "Access denied to the requested resource"))
  ]

  /** The discard arm `_`. */
  const Fallback := Classification(Http.InternalServerError, "An unexpected error occurred")

  /** Every status the handler can answer with. */
  const HandlerStatuses: set<int> := {400, 401, 403, 404, 405, 409, 422, 500}

  /** The position of the first arm whose pattern `e` matches, or |arms| when none does. */
  function FirstMatch(arms: seq<Arm>, e: Exception): (k: nat)
    ensures k <= |arms|
    ensures k < |arms| ==> Is(e, arms[k].pattern)
    ensures forall j :: 0 <= j < k ==> !Is(e, arms[j].pattern)
  {
    if arms == [] then 0
    else if Is(e, arms[0].pattern) then 0
    else 1 + FirstMatch(arms[1..], e)
  }

  /** The switch expression: the first matching arm wins; no match yields the fallback. */
  function Classify(e: Exception): (c: Classification)
    ensures c.status in HandlerStatuses
    ensures c == Fallback <==> forall j :: 0 <= j < |Arms| ==> !Is(e, Arms[j].pattern)
  {
    var k := FirstMatch(Arms, e);
    if k < |Arms| then Arms[k].result else Fallback
  }

  /** The type of the arm that classifies `e`, if any. */
  function MatchedType(e: Exception): (t: Option<ExceptionType>)
    ensures t.Some? ==> Is(e, t.value)
  {
    var k := FirstMatch(Arms, e);
    if k < |Arms| then Some(Arms[k].pattern) else None
  }

  /** First match wins: an exception that matches arm i and no arm before it gets arm i's result,
      whatever later arms it also matches. */
  lemma FirstMatchWins(arms: seq<Arm>, e: Exception, i: nat)
    requires i < |arms| && Is(e, arms[i].pattern)
    requires forall j :: 0 <= j < i ==> !Is(e, arms[j].pattern)
    ensures FirstMatch(arms, e) == i
  {
  }

  /** Any InvalidOperationException is a 400 "Invalid operation attempted", whatever else it is. */
  lemma InvalidOperationComesFirst(e: Exception)
    requires Is(e, InvalidOperationException)
    ensures Classify(e) == Classification(400, "Invalid operation attempted")
  {
  }

  /** An ArgumentException that is not an InvalidOperationException is a 400 "Invalid input provided". */
  lemma ArgumentComesSecond(e: Exception)
    requires Is(e, ArgumentException) && !Is(e, InvalidOperationException)
    ensures Classify(e) == Classification(400, "Invalid input provided")
  {
    FirstMatchWins(Arms, e, 1);
  }

  /** An exception that is none of the named types is a 500 "An unexpected error occurred". */
  lemma UnlistedIsInternalError(e: Exception)
    requires !Is(e, InvalidOperationException) && !Is(e, ArgumentException)
    requires !Is(e, KeyNotFoundException) && !Is(e, FileNotFoundException)
    requires !Is(e, ConcurrencyException) && !Is(e, ValidationException)
    requires !Is(e, DeleteNotAllowedException) && !Is(e, DeleteConstraintException)
    requires !Is(e, UnauthorizedAccessException) && !Is(e, ForbiddenException)
    ensures Classify(e) == Classification(500, "An unexpected error occurred")
  {
  }

  /** 409 Conflict comes only from ConcurrencyException and DeleteConstraintException,
      and the two say different things. */
  lemma ConflictOnlyForConcurrencyAndDeleteConstraint(e: Exception)
    ensures Classify(e).status == Http.Conflict <==>
              MatchedType(e) == Some(ConcurrencyException) || MatchedType(e) == Some(DeleteConstraintException)
    ensures MatchedType(e) == Some(ConcurrencyException) ==>
              Classify(e).message == "The resource was modified by another user"
    ensures MatchedType(e) == Some(DeleteConstraintException) ==>
              Classify(e).message == "Cannot delete due to existing dependencies"
  {
  }

  /** 404 Not Found comes only from KeyNotFoundException and FileNotFoundException,
      with different messages. */
  lemma NotFoundOnlyForKeyAndFile(e: Exception)
    ensures Classify(e).status == Http.NotFound <==>
              MatchedType(e) == Some(KeyNotFoundException) || MatchedType(e) == Some(FileNotFoundException)
    ensures MatchedType(e) == Some(KeyNotFoundException) ==>
              Classify(e).message == "Requested resource not found"
    ensures MatchedType(e) == Some(FileNotFoundException) ==>
              Classify(e).message == "Requested file not found"
  {
  }

  /** The diagnostics attached in Development. */
  datatype DeveloperMessage = DeveloperMessage(
    exception: string,
    stackTrace: Option<string>,
    innerException: Option<string>,
    source: Option<string>,
    targetSite: Option<string>)

  function DeveloperDetails(e: Exception): DeveloperMessage {
    DeveloperMessage(TypeName(e.runtimeType), e.stackTrace, e.innerException, e.source, e.targetSite)
  }

  /** What the JSON reply carries: a snapshot of an ErrorResponse's properties. */
  datatype ErrorBody = ErrorBody(
    statusCode: int,
    message: string,
    traceId: string,
    timestamp: int,
    developerMessage: Option<DeveloperMessage>)

  class ErrorResponse {
    var statusCode: int
    var message: string
    var traceId: string
    var timestamp: int
    var developerMessage: Option<DeveloperMessage>

    /** `new ErrorResponse { TraceId = ..., Timestamp = ... }`; the rest keep their defaults. */
    constructor (traceId: string, timestamp: int)
      ensures this.traceId == traceId && this.timestamp == timestamp
      ensures statusCode == 0 && message == "" && developerMessage == None
    {
      this.traceId := traceId;
      this.timestamp := timestamp;
      statusCode := 0;
      message := "";
      developerMessage := None;
    }

    function Body(): ErrorBody
      reads this
    {
      ErrorBody(statusCode, message, traceId, timestamp, developerMessage)
    }
  }

  /** The part of the HTTP response the handler writes. */
  class HttpResponse {
    var statusCode: int
    var contentType: string
    var body: Option<ErrorBody>

    constructor ()
      ensures statusCode == Http.OK && contentType == "" && body == None
    {
      statusCode := Http.OK;
      contentType := "";
      body := None;
    }
  }

  class HttpContext {
    const traceIdentifier: string
    const response: HttpResponse

    constructor (traceIdentifier: string)
      ensures this.traceIdentifier == traceIdentifier && fresh(response)
      ensures response.statusCode == Http.OK && response.contentType == "" && response.body == None
    {
      this.traceIdentifier := traceIdentifier;
      response := new HttpResponse();
    }
  }

  class GlobalExceptionHandler {
    /** `_environment.IsDevelopment()`. */
    const isDevelopment: bool

    constructor (isDevelopment: bool)
      ensures this.isDevelopment == isDevelopment
    {
      this.isDevelopment := isDevelopment;
    }

    /** TryHandleAsync: builds the error response, adds diagnostics in Development,
        writes it as JSON with the classified status, and claims the exception as handled.
        `now` stands for the clock (DateTimeOffset.UtcNow). */
    method TryHandle(context: HttpContext, e: Exception, now: int) returns (handled: bool)
      modifies context.response
      ensures handled
      ensures context.response.statusCode == Classify(e).status
      ensures context.response.contentType == "application/json"
      ensures context.response.body == Some(ErrorBody(
                Classify(e).status, Classify(e).message, context.traceIdentifier, now,
                if isDevelopment then Some(DeveloperDetails(e)) else None))
    {
      var errorResponse := CreateErrorResponse(context, e, now);
      AddDevelopmentDetails(errorResponse, e);
      SendErrorResponse(context, errorResponse);
      handled := true;
    }

    /** CreateErrorResponseAsync: a new response stamped with the request's trace
        identifier and the time, carrying the classified status and message. */
    method CreateErrorResponse(context: HttpContext, e: Exception, now: int) returns (r: ErrorResponse)
      ensures fresh(r)
      ensures r.statusCode == Classify(e).status && r.message == Classify(e).message
      ensures r.traceId == context.traceIdentifier && r.timestamp == now
      ensures r.developerMessage == None
    {
      r := new ErrorResponse(context.traceIdentifier, now);
      var c := Classify(e);
      r.statusCode, r.message := c.status, c.message;
    }

    /** AddDevelopmentDetailsAsync: diagnostics are attached in Development and only there. */
    method AddDevelopmentDetails(r: ErrorResponse, e: Exception)
      requires r.developerMessage == None
      modifies r
      ensures r.developerMessage.Some? <==> isDevelopment
      ensures isDevelopment ==> r.developerMessage == Some(DeveloperDetails(e))
      ensures !isDevelopment ==> r.developerMessage == old(r.developerMessage)
      ensures r.statusCode == old(r.statusCode) && r.message == old(r.message)
      ensures r.traceId == old(r.traceId) && r.timestamp == old(r.timestamp)
    {
      if isDevelopment {
        r.developerMessage := Some(DeveloperDetails(e));
      }
    }

    /** SendErrorResponseAsync: the response status is the error's status, the content
        type is JSON, and the body is the error response as it stands. */
    method SendErrorResponse(context: HttpContext, r: ErrorResponse)
      modifies context.response
      ensures context.response.statusCode == r.statusCode
      ensures context.response.contentType == "application/json"
      ensures context.response.body == Some(r.Body())
    {
      context.response.statusCode := r.statusCode;
      context.response.contentType := "application/json";
      context.response.body := Some(r.Body());
    }
  }
}
