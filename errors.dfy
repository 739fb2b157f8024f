/**
 * The exception hierarchy of the server: structured error codes, the
 * exception object with its mutable context and suggestions, the code
 * each exception class derives from its arguments, and the registry from
 * codes to exception classes.
 */
module Errors {
  import opened JsonValues
  import opened Strings

  // ---------------------------------------------------------------------
  // Error codes
  // ---------------------------------------------------------------------

  datatype ErrorCode =
    | UnknownError | ConfigurationError | InternalError
    | ApiConnectionError | ApiTimeoutError | ApiRateLimitError | ApiAuthenticationError
    | ApiServerError | ApiClientError
    | ConceptNotFound | ConceptUriInvalid | ConceptLanguageInvalid | ConceptTermInvalid
    | ValidationFieldRequired | ValidationFieldInvalid | ValidationTypeMismatch | ValidationValueOutOfRange
    | ToolExecutionError | ToolParameterError | ToolTimeoutError
    | PaginationInvalidOffset | PaginationInvalidLimit | PaginationPageNotFound | PaginationMergeError
    | TextValidationError | UriValidationError
  {
    /** The enum member's name, `code.name`. */
    function Name(): string
    {
      match this
      case UnknownError => "UNKNOWN_ERROR"
      case ConfigurationError => "CONFIGURATION_ERROR"
      case InternalError => "INTERNAL_ERROR"
      case ApiConnectionError => "API_CONNECTION_ERROR"
      case ApiTimeoutError => "API_TIMEOUT_ERROR"
      case ApiRateLimitError => "API_RATE_LIMIT_ERROR"
      case ApiAuthenticationError => "API_AUTHENTICATION_ERROR"
      case ApiServerError => "API_SERVER_ERROR"
      case ApiClientError => "API_CLIENT_ERROR"
      case ConceptNotFound => "CONCEPT_NOT_FOUND"
      case ConceptUriInvalid => "CONCEPT_URI_INVALID"
      case ConceptLanguageInvalid => "CONCEPT_LANGUAGE_INVALID"
      case ConceptTermInvalid => "CONCEPT_TERM_INVALID"
      case ValidationFieldRequired => "VALIDATION_FIELD_REQUIRED"
      case ValidationFieldInvalid => "VALIDATION_FIELD_INVALID"
      case ValidationTypeMismatch => "VALIDATION_TYPE_MISMATCH"
      case ValidationValueOutOfRange => "VALIDATION_VALUE_OUT_OF_RANGE"
      case ToolExecutionError => "TOOL_EXECUTION_ERROR"
      case ToolParameterError => "TOOL_PARAMETER_ERROR"
      case ToolTimeoutError => "TOOL_TIMEOUT_ERROR"
      case PaginationInvalidOffset => "PAGINATION_INVALID_OFFSET"
      case PaginationInvalidLimit => "PAGINATION_INVALID_LIMIT"
      case PaginationPageNotFound => "PAGINATION_PAGE_NOT_FOUND"
      case PaginationMergeError => "PAGINATION_MERGE_ERROR"
      case TextValidationError => "TEXT_VALIDATION_ERROR"
      case UriValidationError => "URI_VALIDATION_ERROR"
    }

    /** The enum member's value, `code.value`. */
    function Value(): nat
    {
      match this
      case UnknownError => 1000
      case ConfigurationError => 1001
      case InternalError => 1002
      case ApiConnectionError => 2000
      case ApiTimeoutError => 2001
      case ApiRateLimitError => 2002
      case ApiAuthenticationError => 2003
      case ApiServerError => 2004
      case ApiClientError => 2005
      case ConceptNotFound => 3000
      case ConceptUriInvalid => 3001
      case ConceptLanguageInvalid => 3002
      case ConceptTermInvalid => 3003
      case ValidationFieldRequired => 4000
      case ValidationFieldInvalid => 4001
      case ValidationTypeMismatch => 4002
      case ValidationValueOutOfRange => 4003
      case ToolExecutionError => 5000
      case ToolParameterError => 5001
      case ToolTimeoutError => 5002
      case PaginationInvalidOffset => 6000
      case PaginationInvalidLimit => 6001
      case PaginationPageNotFound => 6002
      case PaginationMergeError => 6003
      case TextValidationError => 7000
      case UriValidationError => 7001
    }
  }

  /** Every member of the enum, in declaration order (`list(ErrorCode)`). */
  const AllCodes: seq<ErrorCode> := [
    UnknownError, ConfigurationError, InternalError,
    ApiConnectionError, ApiTimeoutError, ApiRateLimitError, ApiAuthenticationError, ApiServerError, ApiClientError,
    ConceptNotFound, ConceptUriInvalid, ConceptLanguageInvalid, ConceptTermInvalid,
    ValidationFieldRequired, ValidationFieldInvalid, ValidationTypeMismatch, ValidationValueOutOfRange,
    ToolExecutionError, ToolParameterError, ToolTimeoutError,
    PaginationInvalidOffset, PaginationInvalidLimit, PaginationPageNotFound, PaginationMergeError,
    TextValidationError, UriValidationError
  ]

  /** `ErrorCode(value)`: the member with that value, if any. */
  function CodeOfValue(v: int): (r: Option<ErrorCode>)
    ensures r.Some? ==> r.value.Value() == v
  {
    if v == 1000 then Some(UnknownError) else if v == 1001 then Some(ConfigurationError)
    else if v == 1002 then Some(InternalError) else if v == 2000 then Some(ApiConnectionError)
    else if v == 2001 then Some(ApiTimeoutError) else if v == 2002 then Some(ApiRateLimitError)
    else if v == 2003 then Some(ApiAuthenticationError) else if v == 2004 then Some(ApiServerError)
    else if v == 2005 then Some(ApiClientError) else if v == 3000 then Some(ConceptNotFound)
    else if v == 3001 then Some(ConceptUriInvalid) else if v == 3002 then Some(ConceptLanguageInvalid)
    else if v == 3003 then Some(ConceptTermInvalid) else if v == 4000 then Some(ValidationFieldRequired)
    else if v == 4001 then Some(ValidationFieldInvalid) else if v == 4002 then Some(ValidationTypeMismatch)
    else if v == 4003 then Some(ValidationValueOutOfRange) else if v == 5000 then Some(ToolExecutionError)
    else if v == 5001 then Some(ToolParameterError) else if v == 5002 then Some(ToolTimeoutError)
    else if v == 6000 then Some(PaginationInvalidOffset) else if v == 6001 then Some(PaginationInvalidLimit)
    else if v == 6002 then Some(PaginationPageNotFound) else if v == 6003 then Some(PaginationMergeError)
    else if v == 7000 then Some(TextValidationError) else if v == 7001 then Some(UriValidationError)
    else None
  }

  /** Looking a code up by its value finds that code, so no two members
    * share a value, and the thousands digit is the category. */
  lemma CodeValueRoundTrip(c: ErrorCode)
    ensures CodeOfValue(c.Value()) == Some(c)
    ensures 1 <= c.Value() / 1000 <= 7 && c.Value() % 1000 < 6
  {
  }

  lemma CodeValuesDistinct(a: ErrorCode, b: ErrorCode)
    ensures a.Value() == b.Value() ==> a == b
  {
    CodeValueRoundTrip(a);
    CodeValueRoundTrip(b);
  }

  lemma AllCodesComplete(c: ErrorCode)
    ensures c in AllCodes
  {
  }

  // ---------------------------------------------------------------------
  // Exception classes and the registry
  // ---------------------------------------------------------------------

  datatype ErrorClass =
    | McpErrorClass | ApiErrorClass | RateLimitExceededClass | NetworkTimeoutClass
    | AuthenticationClass | ConceptNotFoundClass | InvalidConceptUriClass | InvalidLanguageClass
    | ValidationClass | McpToolClass | PaginationClass | ConfigurationClass
    | TextValidationClass | UriValidationClass
  {
    /** The Python class name, `type(e).__name__`. */
    function ClassName(): string
    {
      match this
      case McpErrorClass => "ConceptNetMCPError"
      case ApiErrorClass => "ConceptNetAPIError"
      case RateLimitExceededClass => "RateLimitExceededError"
      case NetworkTimeoutClass => "NetworkTimeoutError"
      case AuthenticationClass => "AuthenticationError"
      case ConceptNotFoundClass => "ConceptNotFoundError"
      case InvalidConceptUriClass => "InvalidConceptURIError"
      case InvalidLanguageClass => "InvalidLanguageError"
      case ValidationClass => "ValidationError"
      case McpToolClass => "MCPToolError"
      case PaginationClass => "PaginationError"
      case ConfigurationClass => "ConfigurationError"
      case TextValidationClass => "TextValidationError"
      case UriValidationClass => "URIValidationError"
    }

    /** Whether the class derives from ConceptNetAPIError. */
    predicate IsApiError()
    {
      this in {ApiErrorClass, RateLimitExceededClass, NetworkTimeoutClass, AuthenticationClass}
    }
  }

  /** The class EXCEPTION_REGISTRY registers for each code. */
  function RegisteredClass(code: ErrorCode): ErrorClass
  {
    match code
    case UnknownError => McpErrorClass
    case ConfigurationError => ConfigurationClass
    case InternalError => McpErrorClass
    case ApiConnectionError => ApiErrorClass
    case ApiTimeoutError => NetworkTimeoutClass
    case ApiRateLimitError => RateLimitExceededClass
    case ApiAuthenticationError => AuthenticationClass
    case ApiServerError => ApiErrorClass
    case ApiClientError => ApiErrorClass
    case ConceptNotFound => ConceptNotFoundClass
    case ConceptUriInvalid => InvalidConceptUriClass
    case ConceptLanguageInvalid => InvalidLanguageClass
    case ConceptTermInvalid => McpErrorClass
    case ValidationFieldRequired => ValidationClass
    case ValidationFieldInvalid => ValidationClass
    case ValidationTypeMismatch => ValidationClass
    case ValidationValueOutOfRange => ValidationClass
    case ToolExecutionError => McpToolClass
    case ToolParameterError => McpToolClass
    case ToolTimeoutError => McpToolClass
    case PaginationInvalidOffset => PaginationClass
    case PaginationInvalidLimit => PaginationClass
    case PaginationPageNotFound => PaginationClass
    case PaginationMergeError => PaginationClass
    case TextValidationError => TextValidationClass
    case UriValidationError => UriValidationClass
  }

  /** EXCEPTION_REGISTRY: the class of every member of the enum. */
  const Registry: map<ErrorCode, ErrorClass> := map c | c in AllCodes :: RegisteredClass(c)

  /** get_exception_for_error_code: the registered class, falling back to
    * the base class for a code missing from the registry. */
  function ExceptionForCode(code: ErrorCode): (r: ErrorClass)
    ensures code in Registry ==> r == Registry[code]
    ensures code !in Registry ==> r == McpErrorClass
  {
    if code in Registry then Registry[code] else McpErrorClass
  }

  /** Every code is registered, and the classes registered for the API
    * codes (2000-2999) are exactly the ConceptNetAPIError family. */
  lemma RegistryComplete(c: ErrorCode)
    ensures c in Registry
    ensures ExceptionForCode(c).IsApiError() <==> c.Value() / 1000 == 2
  {
    AllCodesComplete(c);
  }


  // ---------------------------------------------------------------------
  // Codes chosen by the exception subclasses
  // ---------------------------------------------------------------------

  /** ConceptNetAPIError: the code chosen from the HTTP status (a status of
    * None or 0 is falsy in the source). */
  function ApiErrorCode(status: Option<int>): (r: ErrorCode)
    ensures r == ApiRateLimitError <==> status == Some(429)
    ensures r == ApiClientError <==> status.Some? && 400 <= status.value < 500 && status.value != 429
    ensures r == ApiServerError <==> status.Some? && 500 <= status.value < 600
    ensures r == ApiConnectionError <==> status.None? || !(400 <= status.value < 600)
  {
    if status == Some(429) then ApiRateLimitError
    else if status.Some? && status.value != 0 && 400 <= status.value < 500 then ApiClientError
    else if status.Some? && status.value != 0 && 500 <= status.value < 600 then ApiServerError
    else ApiConnectionError
  }

  /** The suggestions of a rate-limited request. */
  const RateLimitSuggestions: seq<string> :=
    ["Wait before retrying the request", "Implement exponential backoff in your retry logic"]
  /** The suggestions of a server error. */
  const ServerErrorSuggestions: seq<string> :=
    ["Retry the request after a short delay", "Check ConceptNet service status"]
  /** The suggestions of a missing resource. */
  const NotFoundSuggestions: seq<string> :=
    ["Verify the concept or endpoint exists", "Check the URI format and spelling"]

  /** ConceptNetAPIError: the suggestions chosen from the HTTP status.  They
    * follow the error code, except that among the client errors only 404
    * has suggestions. */
  function ApiSuggestions(status: Option<int>): (r: seq<string>)
    ensures ApiErrorCode(status) == ApiRateLimitError ==> r == RateLimitSuggestions
    ensures ApiErrorCode(status) == ApiServerError ==> r == ServerErrorSuggestions
    ensures ApiErrorCode(status) == ApiClientError ==> r == (if status == Some(404) then NotFoundSuggestions else [])
    ensures ApiErrorCode(status) == ApiConnectionError ==> r == []
  {
    if status == Some(429) then RateLimitSuggestions
    else if status.Some? && status.value != 0 && 500 <= status.value < 600 then ServerErrorSuggestions
    else if status == Some(404) then NotFoundSuggestions
    else []
  }

  /** ValidationError: the code chosen from the lowercased `expected` text,
    * with "required" before "type" before the range words. */
  function ValidationErrorCode(expected: string): (r: ErrorCode)
    ensures var e := Lower(expected);
      && (r == ValidationFieldRequired <==> Contains(e, "required"))
      && (r == ValidationTypeMismatch <==> !Contains(e, "required") && Contains(e, "type"))
      && (r == ValidationValueOutOfRange <==>
            (!Contains(e, "required") && !Contains(e, "type")
             && (Contains(e, "range") || Contains(e, "between") || Contains(e, "min") || Contains(e, "max"))))
      && (r == ValidationFieldInvalid <==>
            (!Contains(e, "required") && !Contains(e, "type")
             && !Contains(e, "range") && !Contains(e, "between") && !Contains(e, "min") && !Contains(e, "max")))
  {
    var e := Lower(expected);
    if Contains(e, "required") then ValidationFieldRequired
    else if Contains(e, "type") then ValidationTypeMismatch
    else if Contains(e, "range") || Contains(e, "between") || Contains(e, "min") || Contains(e, "max") then
      ValidationValueOutOfRange
    else ValidationFieldInvalid
  }

  /** PaginationError: the code chosen from the lowercased message, with
    * "offset" before "limit" before "page not found" before "merge"; any
    * other message also gives PAGINATION_INVALID_OFFSET. */
  function PaginationErrorCode(message: string): (r: ErrorCode)
    ensures var m := Lower(message);
      && (r == PaginationInvalidLimit <==> !Contains(m, "offset") && Contains(m, "limit"))
      && (r == PaginationPageNotFound <==> !Contains(m, "offset") && !Contains(m, "limit") && Contains(m, "page not found"))
      && (r == PaginationMergeError <==>
            (!Contains(m, "offset") && !Contains(m, "limit") && !Contains(m, "page not found") && Contains(m, "merge")))
      && (r == PaginationInvalidOffset <==>
            (Contains(m, "offset") || (!Contains(m, "limit") && !Contains(m, "page not found") && !Contains(m, "merge"))))
  {
    var m := Lower(message);
    if Contains(m, "offset") then PaginationInvalidOffset
    else if Contains(m, "limit") then PaginationInvalidLimit
    else if Contains(m, "page not found") then PaginationPageNotFound
    else if Contains(m, "merge") then PaginationMergeError
    else PaginationInvalidOffset
  }

  const PaginationBaseSuggestions: seq<string> := [
    "Retry the pagination request",
    "Check if the page URL is valid and accessible",
    "Verify pagination parameters (offset, limit)"
  ]

  function PartialResultsSuggestion(count: nat): string
  {
    "Use partial results (" + NatToString(count) + " items)"
  }

  /** PaginationError: three fixed suggestions, then one about partial
    * results exactly when some were carried. */
  function PaginationSuggestions(partialCount: nat): (r: seq<string>)
    ensures |r| >= 3 && r[..3] == PaginationBaseSuggestions
    ensures |r| == 3 <==> partialCount == 0
    ensures partialCount > 0 ==> r == PaginationBaseSuggestions + [PartialResultsSuggestion(partialCount)]
  {
    if partialCount > 0 then PaginationBaseSuggestions + [PartialResultsSuggestion(partialCount)]
    else PaginationBaseSuggestions
  }

  /** The keyword arguments InvalidConceptURIError.__init__ accepts. */
  const InvalidUriKeywords: set<string> := {"uri", "expected_format", "uri_parts", "validation_errors"}

  /** Calling InvalidConceptURIError with a `reason=` keyword raises TypeError. */
  lemma InvalidUriRejectsReason()
    ensures "reason" !in InvalidUriKeywords
  {
    assert "reason"[0] != "uri"[0] && "reason"[0] != "expected_format"[0];
    assert "reason"[0] != "uri_parts"[0] && "reason"[0] != "validation_errors"[0];
  }

  // ---------------------------------------------------------------------
  // Raised exceptions, as values flowing through the model
  // ---------------------------------------------------------------------

  /** An exception raised by a modelled operation. `TypeErr` stands for the
    * interpreter's own TypeError/AttributeError, `Pydantic` for a pydantic
    * model's validation failure; neither belongs to the hierarchy above. */
  datatype Raised =
    | Api(message: string, status: Option<int>)
    | Validation(field: string, expected: string)
    | InvalidUri(uri: string)
    | InvalidLanguage(language: string)
    | Pagination(message: string, partial: seq<Json>)
    | Base(message: string, code: ErrorCode)
    | TypeErr
    | ValueErr(message: string)
    | Pydantic(field: string)
  {
    /** The error code the raised exception carries, if it has one. */
    function Code(): Option<ErrorCode>
    {
      match this
      case Api(_, status) => Some(ApiErrorCode(status))
      case Validation(_, expected) => Some(ValidationErrorCode(expected))
      case InvalidUri(_) => Some(ConceptUriInvalid)
      case InvalidLanguage(_) => Some(ConceptLanguageInvalid)
      case Pagination(message, _) => Some(PaginationErrorCode(message))
      case Base(_, code) => Some(code)
      case _ => None
    }
  }

  datatype Result<T> = Ok(value: T) | Err(error: Raised)
  {
    predicate IsFailure() { Err? }

    function PropagateFailure<U>(): Result<U>
      requires Err?
    {
      Err(error)
    }

    function Extract(): T
      requires Ok?
    {
      value
    }
  }

  /** `str(e)` of a raised exception, as a wrapping handler embeds it in a
    * new message; the model leaves the text open. */
  const ExceptionText: Raised -> string

  // ---------------------------------------------------------------------
  // The exception object
  // ---------------------------------------------------------------------

  /** A ConceptNetMCPError instance; its context dict and suggestions list
    * are updated in place. */
  class McpException {
    const kind: ErrorClass
    var message: string
    var code: ErrorCode
    var details: map<string, Json>
    var suggestions: seq<string>
    var context: map<string, Json>

    constructor (kind: ErrorClass, message: string, code: ErrorCode,
                 details: map<string, Json>, suggestions: seq<string>, context: map<string, Json>)
      ensures this.kind == kind && this.message == message && this.code == code
      ensures this.details == details && this.suggestions == suggestions && this.context == context
    {
      this.kind := kind;
      this.message := message;
      this.code := code;
      this.details := details;
      this.suggestions := suggestions;
      this.context := context;
    }

    /** add_context: sets exactly one key and returns the same object. */
    method AddContext(key: string, value: Json) returns (self: McpException)
      modifies this
      ensures self == this
      ensures context == old(context)[key := value]
      ensures message == old(message) && code == old(code)
      ensures details == old(details) && suggestions == old(suggestions)
    {
      context := context[key := value];
      self := this;
    }

    /** add_suggestion: appends exactly one item and returns the same object. */
    method AddSuggestion(suggestion: string) returns (self: McpException)
      modifies this
      ensures self == this
      ensures suggestions == old(suggestions) + [suggestion]
      ensures message == old(message) && code == old(code)
      ensures details == old(details) && context == old(context)
    {
      suggestions := suggestions + [suggestion];
      self := this;
    }

    /** to_dict. */
    function ToDict(): (r: map<string, Json>)
      reads this
      ensures r.Keys == {"error_type", "message", "error_code", "error_code_value", "details", "suggestions", "context"}
    {
      map[
        "error_type" := Str(kind.ClassName()),
        "message" := Str(message),
        "error_code" := Str(code.Name()),
        "error_code_value" := Num(code.Value() as real),
        "details" := Obj(details),
        "suggestions" := Arr(StrList(suggestions)),
        "context" := Obj(context)
      ]
    }

    /** __str__. */
    function Render(): string
      reads this
    {
      Header() + (if suggestions == [] then "" else "\nSuggestions: " + JoinWith(suggestions, "; "))
    }

    function Header(): string
      reads this
    {
      "[" + code.Name() + "] " + message
    }
  }

  function StrList(xs: seq<string>): (r: seq<Json>)
    ensures |r| == |xs| && forall i :: 0 <= i < |xs| ==> r[i] == Str(xs[i])
  {
    seq(|xs|, i requires 0 <= i < |xs| => Str(xs[i]))
  }

  /** to_dict's code name and code value both identify the object's code,
    * and its message and suggestions are those of the object. */
  lemma ToDictIdentifiesCode(e: McpException)
    ensures var d := e.ToDict();
      && d["error_code_value"].Num? && d["error_code_value"].r.Floor == e.code.Value()
      && CodeOfValue(d["error_code_value"].r.Floor) == Some(e.code)
      && d["message"] == Str(e.message)
      && d["suggestions"].Arr? && |d["suggestions"].items| == |e.suggestions|
      && (forall i :: 0 <= i < |e.suggestions| ==> d["suggestions"].items[i] == Str(e.suggestions[i]))
  {
    CodeValueRoundTrip(e.code);
  }

  /** `str(e)` is `[CODE] message` exactly when there are no suggestions,
    * and otherwise that text followed by the joined suggestions. */
  lemma RenderShape(e: McpException)
    ensures StartsWith(e.Render(), "[" + e.code.Name() + "] " + e.message)
    ensures e.suggestions == [] <==> e.Render() == "[" + e.code.Name() + "] " + e.message
    ensures e.suggestions != [] ==> EndsWith(e.Render(), "\nSuggestions: " + JoinWith(e.suggestions, "; "))
  {
    var h := e.Header();
    assert e.Render()[..|h|] == h;
    if e.suggestions != [] {
      assert |e.Render()| > |h|;
    }
  }

  // ---------------------------------------------------------------------
  // Construction of the subclasses that the model raises
  // ---------------------------------------------------------------------

  function OptionalStr(s: Option<string>): Json
  {
    if s.Some? then Str(s.value) else Null
  }

  function OptionalInt(i: Option<int>): Json
  {
    if i.Some? then Num(i.value as real) else Null
  }

  /** ConceptNetAPIError(message, status_code, endpoint=…, method=…, request_id=…). */
  method NewApiError(message: string, status: Option<int>, endpoint: Option<string>,
                     httpMethod: Option<string>, requestId: Option<string>) returns (e: McpException)
    ensures fresh(e)
    ensures e.kind == ApiErrorClass && e.message == message && e.details == map[]
    ensures e.code == ApiErrorCode(status) && e.suggestions == ApiSuggestions(status)
    ensures e.context == map["api_endpoint" := OptionalStr(endpoint), "http_method" := OptionalStr(httpMethod),
                             "status_code" := OptionalInt(status), "request_id" := OptionalStr(requestId)]
  {
    e := new McpException(ApiErrorClass, message, ApiErrorCode(status), map[], ApiSuggestions(status), map[]);
    var _ := e.AddContext("api_endpoint", OptionalStr(endpoint));
    var _ := e.AddContext("http_method", OptionalStr(httpMethod));
    var _ := e.AddContext("status_code", OptionalInt(status));
    var _ := e.AddContext("request_id", OptionalStr(requestId));
  }

  /** ValidationError(field, value, expected, validator, constraints); the
    * `value` is passed as its `str()` text. Constraint suggestions are
    * not modelled. */
  method NewValidationError(field: string, value: string, expected: string, validator: Option<string>)
    returns (e: McpException)
    ensures fresh(e)
    ensures e.kind == ValidationClass && e.code == ValidationErrorCode(expected)
    ensures e.message == "Validation error for field '" + field + "': " + value + " (expected: " + expected + ")"
    ensures e.suggestions == ["Ensure '" + field + "' matches the expected format: " + expected,
                              "Check the API documentation for valid parameter values"]
    ensures e.context == map["validation_field" := Str(field), "validation_value" := Str(value),
                             "validation_expected" := Str(expected), "validator_name" := OptionalStr(validator),
                             "constraints" := Null]
  {
    var message := "Validation error for field '" + field + "': " + value + " (expected: " + expected + ")";
    var suggestions := ["Ensure '" + field + "' matches the expected format: " + expected,
                        "Check the API documentation for valid parameter values"];
    e := new McpException(ValidationClass, message, ValidationErrorCode(expected), map[], suggestions, map[]);
    var _ := e.AddContext("validation_field", Str(field));
    var _ := e.AddContext("validation_value", Str(value));
    var _ := e.AddContext("validation_expected", Str(expected));
    var _ := e.AddContext("validator_name", OptionalStr(validator));
    var _ := e.AddContext("constraints", Null);
  }

  /** PaginationError(message, page_url, page_number, total_pages, partial_results). */
  method NewPaginationError(message: string, pageUrl: Option<string>, pageNumber: Option<int>,
                            totalPages: Option<int>, partial: seq<Json>) returns (e: McpException)
    ensures fresh(e)
    ensures e.kind == PaginationClass && e.message == message
    ensures e.code == PaginationErrorCode(message) && e.suggestions == PaginationSuggestions(|partial|)
    ensures e.context == map["failed_page_url" := OptionalStr(pageUrl), "failed_page_number" := OptionalInt(pageNumber),
                             "total_pages" := OptionalInt(totalPages), "partial_results_count" := Num(|partial| as real),
                             "pagination_metadata" := Null]
  {
    e := new McpException(PaginationClass, message, PaginationErrorCode(message), map[],
                          PaginationSuggestions(|partial|), map[]);
    var _ := e.AddContext("failed_page_url", OptionalStr(pageUrl));
    var _ := e.AddContext("failed_page_number", OptionalInt(pageNumber));
    var _ := e.AddContext("total_pages", OptionalInt(totalPages));
    var _ := e.AddContext("partial_results_count", Num(|partial| as real));
    var _ := e.AddContext("pagination_metadata", Null);
  }

  // ---------------------------------------------------------------------
  // Cases from the exception tests
  // ---------------------------------------------------------------------

  lemma ApiStatusExamples()
    ensures ApiErrorCode(Some(429)) == ApiRateLimitError
    ensures ApiErrorCode(Some(404)) == ApiClientError && |ApiSuggestions(Some(404))| == 2
    ensures ApiErrorCode(Some(503)) == ApiServerError
    ensures ApiErrorCode(None) == ApiConnectionError && ApiErrorCode(Some(0)) == ApiConnectionError
  {
  }
}
