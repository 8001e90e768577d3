/** The application's error taxonomy: five kinds of error, each with a
    message, and for each kind the HTTP status, the machine-readable type tag
    and the human-readable rendering that an error response carries.
 */
module AppErrors {

  datatype AppError =
    | Config(message: string)
    | Server(message: string)
    | Environment(varName: string, message: string)
    | Internal(message: string)
    | Validation(message: string)

  /** True when `a` and `b` are the same kind of error, whatever they carry. */
  predicate SameVariant(a: AppError, b: AppError) {
    || (a.Config? && b.Config?)
    || (a.Server? && b.Server?)
    || (a.Environment? && b.Environment?)
    || (a.Internal? && b.Internal?)
    || (a.Validation? && b.Validation?)
  }

  // The constructors. `AppError::config` and its siblings accept any
  // `Display` value and store its text; here the text is the argument.

  function ConfigError(message: string): (e: AppError)
    ensures e.Config? && e.message == message
    ensures ErrorType(e) == "configuration_error" && Status(e) == InternalServerError
  {
    Config(message)
  }

  function ServerError(message: string): (e: AppError)
    ensures e.Server? && e.message == message
    ensures ErrorType(e) == "server_error" && Status(e) == InternalServerError
  {
    Server(message)
  }

  function EnvironmentError(varName: string, message: string): (e: AppError)
    ensures e.Environment? && e.varName == varName && e.message == message
    ensures ErrorType(e) == "environment_error" && Status(e) == InternalServerError
  {
    Environment(varName, message)
  }

  function InternalError(message: string): (e: AppError)
    ensures e.Internal? && e.message == message
    ensures ErrorType(e) == "internal_error" && Status(e) == InternalServerError
  {
    Internal(message)
  }

  function ValidationError(message: string): (e: AppError)
    ensures e.Validation? && e.message == message
    ensures ErrorType(e) == "validation_error" && Status(e) == BadRequest
  {
    Validation(message)
  }

  /** The two HTTP statuses an error can produce. */
  datatype StatusCode = BadRequest | InternalServerError {

    function Code(): (c: nat)
      ensures BadRequest? <==> c == 400
      ensures InternalServerError? <==> c == 500
    {
      match this
      case BadRequest => 400
      case InternalServerError => 500
    }
  }

  /** A 4xx code: the client is at fault. */
  predicate IsClientError(code: nat) {
    400 <= code < 500
  }

  /** A 5xx code: the server is at fault. */
  predicate IsServerError(code: nat) {
    500 <= code < 600
  }

  function Status(e: AppError): (s: StatusCode)
    ensures s == BadRequest <==> e.Validation?
  {
    match e
    case Config(_) => InternalServerError
    case Server(_) => InternalServerError
    case Environment(_, _) => InternalServerError
    case Internal(_) => InternalServerError
    case Validation(_) => BadRequest
  }

  /** Only a validation error blames the client; every other kind is a
      server-side failure. */
  lemma StatusClass(e: AppError)
    ensures IsClientError(Status(e).Code()) <==> e.Validation?
    ensures IsServerError(Status(e).Code()) <==> !e.Validation?
  {
  }

  const ErrorTypes: set<string> :=
    {"configuration_error", "server_error", "environment_error", "internal_error", "validation_error"}

  function ErrorType(e: AppError): (t: string)
    ensures t in ErrorTypes
    ensures e.Validation? <==> t == "validation_error"
  {
    match e
    case Config(_) => "configuration_error"
    case Server(_) => "server_error"
    case Environment(_, _) => "environment_error"
    case Internal(_) => "internal_error"
    case Validation(_) => "validation_error"
  }

  /** The type tag identifies the kind of error: two errors share a tag
      exactly when they are the same kind, so the five tags are pairwise
      distinct. */
  lemma ErrorTypeIdentifiesVariant(a: AppError, b: AppError)
    ensures ErrorType(a) == ErrorType(b) <==> SameVariant(a, b)
  {
  }

  /** Every tag in the table is used by some kind of error. */
  lemma ErrorTypesAllUsed(t: string)
    requires t in ErrorTypes
    ensures exists e :: ErrorType(e) == t
  {
    if t == "configuration_error" {
      assert ErrorType(Config("")) == t;
    } else if t == "server_error" {
      assert ErrorType(Server("")) == t;
    } else if t == "environment_error" {
      assert ErrorType(Environment("", "")) == t;
    } else if t == "internal_error" {
      assert ErrorType(Internal("")) == t;
    } else {
      assert ErrorType(Validation("")) == t;
    }
  }

  /** The text that introduces each kind of error in its rendering. */
  function Prefix(e: AppError): string {
    match e
    case Config(_) => "Configuration error: "
    case Server(_) => "Server error: "
    case Environment(_, _) => "Environment variable error: "
    case Internal(_) => "Internal server error: "
    case Validation(_) => "Validation error: "
  }

  /** The rendering of an error (its `Display`). */
  function Display(e: AppError): (s: string)
    ensures |Prefix(e)| <= |s| && s[..|Prefix(e)|] == Prefix(e)
    ensures |e.message| <= |s| && s[|s| - |e.message|..] == e.message
  {
    match e
    case Environment(varName, message) => Prefix(e) + varName + " - " + message
    case _ => Prefix(e) + e.message
  }

  /** The rendering identifies the kind of error: the five prefixes already
      differ in their first character. */
  lemma {:induction false} DisplayIdentifiesVariant(a: AppError, b: AppError)
    requires Display(a) == Display(b)
    ensures SameVariant(a, b)
  {
    assert Display(a)[0] == Prefix(a)[0];
    assert Display(b)[0] == Prefix(b)[0];
  }

  /** The rendering loses nothing except, for environment errors, where the
      variable name ends and the message begins: two errors with the same
      rendering are equal once their variable names agree. */
  lemma {:induction false} DisplayInjective(a: AppError, b: AppError)
    requires Display(a) == Display(b)
    requires a.Environment? ==> b.Environment? && a.varName == b.varName
    ensures a == b
  {
    DisplayIdentifiesVariant(a, b);
    var s := Display(a);
    var n := |Prefix(a)|;
    assert Prefix(a) == Prefix(b);
    if a.Environment? {
      var k := n + |a.varName| + 3;
      assert s[k..] == a.message;
      assert Display(b)[k..] == b.message;
    } else {
      assert s[n..] == a.message;
      assert Display(b)[n..] == b.message;
    }
  }

  /** Without the variable name the rendering of an environment error is
      ambiguous: a name containing " - " reads like a shorter name followed
      by part of the message. */
  lemma EnvironmentDisplayAmbiguous()
    ensures Environment("A - B", "C") != Environment("A", "B - C")
    ensures Display(Environment("A - B", "C")) == Display(Environment("A", "B - C"))
  {
  }

  /** The `error` object of an error response. The timestamp is the time the
      response was built, supplied by the caller. */
  datatype ErrorBody = ErrorBody(errorType: string, message: string, timestamp: string)

  datatype ErrorResponse = ErrorResponse(status: StatusCode, body: ErrorBody)

  function ToResponse(e: AppError, timestamp: string): (r: ErrorResponse)
    ensures r.status == Status(e)
    ensures r.body.errorType == ErrorType(e)
    ensures r.body.message == Display(e)
    ensures r.body.timestamp == timestamp
  {
    ErrorResponse(Status(e), ErrorBody(ErrorType(e), Display(e), timestamp))
  }

  /** An error response is self-consistent: its status is 400 exactly when
      its type tag is "validation_error", and its message opens with the
      prefix of the kind its tag names. */
  lemma {:induction false} ResponseConsistent(e: AppError, timestamp: string)
    ensures var r := ToResponse(e, timestamp);
      && (r.status.Code() == 400 <==> r.body.errorType == "validation_error")
      && r.body.errorType in ErrorTypes
      && (forall f :: ErrorType(f) == r.body.errorType ==>
            |Prefix(f)| <= |r.body.message| && r.body.message[..|Prefix(f)|] == Prefix(f))
  {
    var r := ToResponse(e, timestamp);
    forall f | ErrorType(f) == r.body.errorType
      ensures |Prefix(f)| <= |r.body.message| && r.body.message[..|Prefix(f)|] == Prefix(f)
    {
      ErrorTypeIdentifiesVariant(e, f);
    }
  }

  /** A response (at a given time) pins down the error it reports, up to the
      ambiguity of environment errors' variable names. */
  lemma {:induction false} ResponseIdentifiesError(a: AppError, b: AppError, timestamp: string)
    requires ToResponse(a, timestamp) == ToResponse(b, timestamp)
    requires a.Environment? ==> b.Environment? && a.varName == b.varName
    ensures a == b
  {
    DisplayInjective(a, b);
  }

  /** The unit tests in error.rs of the constructors, statuses and tags. */
  lemma ErrorExamples()
    ensures ConfigError("Invalid port").Config?
    ensures ServerError("Failed to bind").Server?
    ensures EnvironmentError("PORT", "Not a number").Environment?
    ensures Status(ConfigError("test")).Code() == 500
    ensures Status(ValidationError("test")).Code() == 400
    ensures ErrorType(ConfigError("test")) == "configuration_error"
    ensures ErrorType(ValidationError("test")) == "validation_error"
  {
  }
}
