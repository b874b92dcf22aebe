/** The backend's three base exception classes, `BaseAuthError`,
    `BaseNotFoundError` and `BaseValidationError`. Each constructor fills
    `message`, `status_code` and `details` from its arguments, falling back
    to the class default whenever an argument is falsy (None, "", 0, an
    empty dict or list). */
module BaseExceptions {
  import opened Common

  datatype ErrorClass = AuthClass | NotFoundClass | ValidationClass

  /** `details`: a dict of strings for the auth and not-found errors, a
      list of dicts for the validation error, or None. */
  datatype Details =
    | NoDetails
    | DictDetails(entries: map<string, string>)
    | ListDetails(items: seq<map<string, string>>)

  /** Python's `bool(details)`. */
  predicate DetailsTruthy(d: Details)
  {
    match d
    case NoDetails => false
    case DictDetails(m) => |m| > 0
    case ListDetails(l) => |l| > 0
  }

  datatype BaseError = BaseError(cls: ErrorClass, message: string, statusCode: int, details: Details)

  function DefaultMessage(cls: ErrorClass): string
  {
    match cls
    case AuthClass => "Authentication failed"
    case NotFoundClass => "Not found"
    case ValidationClass => "Validation failed"
  }

  function DefaultCode(cls: ErrorClass): int
  {
    match cls
    case AuthClass => 401
    case NotFoundClass => 404
    case ValidationClass => 400
  }

  function DefaultDetails(cls: ErrorClass): Details
  {
    match cls
    case ValidationClass => ListDetails([map["field" := "root", "message" := "Validation failed"]])
    case _ => NoDetails
  }

  /** The shared constructor: `x or default` for each of the three fields. */
  function NewError(cls: ErrorClass, code: Option<int>, message: Option<string>, details: Details): (e: BaseError)
    ensures e.cls == cls
    // whatever the arguments, the error has a message and a status code
    ensures e.message != "" && e.statusCode != 0
    // a truthy argument is kept
    ensures message.Some? && message.value != "" ==> e.message == message.value
    ensures code.Some? && code.value != 0 ==> e.statusCode == code.value
    ensures DetailsTruthy(details) ==> e.details == details
    // a falsy or omitted argument gives the class default
    ensures message.None? || message.value == "" ==> e.message == DefaultMessage(cls)
    ensures code.None? || code.value == 0 ==> e.statusCode == DefaultCode(cls)
    ensures !DetailsTruthy(details) ==> e.details == DefaultDetails(cls)
  {
    BaseError(cls,
      if message.Some? && message.value != "" then message.value else DefaultMessage(cls),
      if code.Some? && code.value != 0 then code.value else DefaultCode(cls),
      if DetailsTruthy(details) then details else DefaultDetails(cls))
  }

  /** `__str__`. */
  function Str(e: BaseError): string
  {
    e.message
  }

  /** A constructed error never has an empty message nor a zero status
      code, and a validation error always carries at least one detail. */
  lemma NewErrorNeverEmpty(cls: ErrorClass, code: Option<int>, message: Option<string>, details: Details)
    ensures Str(NewError(cls, code, message, details)) != ""
    ensures NewError(cls, code, message, details).statusCode != 0
    ensures cls == ValidationClass ==> DetailsTruthy(NewError(cls, code, message, details).details)
  {
  }

  /** Falsy arguments are the same as omitted ones. */
  lemma FalsyArgumentsFallBack(cls: ErrorClass, d: Details)
    requires !DetailsTruthy(d)
    ensures NewError(cls, Some(0), Some(""), d) == NewError(cls, None, None, NoDetails)
    ensures NewError(cls, None, None, NoDetails) ==
      BaseError(cls, DefaultMessage(cls), DefaultCode(cls), DefaultDetails(cls))
  {
  }

  /** A truthy message is what `str()` shows, and a truthy code is kept. */
  lemma GivenValuesKept(cls: ErrorClass, code: int, message: string, details: Details)
    requires code != 0 && message != "" && DetailsTruthy(details)
    ensures Str(NewError(cls, Some(code), Some(message), details)) == message
    ensures NewError(cls, Some(code), Some(message), details).statusCode == code
    ensures NewError(cls, Some(code), Some(message), details).details == details
  {
  }

  /** The class defaults: 401, 404 and 400. */
  lemma DefaultCodes()
    ensures NewError(AuthClass, None, None, NoDetails).statusCode == 401
    ensures NewError(NotFoundClass, None, None, NoDetails).statusCode == 404
    ensures NewError(ValidationClass, None, None, NoDetails).statusCode == 400
    ensures NewError(ValidationClass, None, None, NoDetails).details ==
      ListDetails([map["field" := "root", "message" := "Validation failed"]])
  {
  }
}
