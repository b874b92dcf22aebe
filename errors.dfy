/** The exceptions the backend's controllers raise or let through, and the
    outcome of an operation that may raise one. */
module Errors {
  import opened BaseExceptions

  datatype Exc =
    | Base(err: BaseError)                         // the three base classes
    | HttpError(status: int, message: string)      // ninja's HttpError
    | AuthenticationError(message: string)         // ninja's AuthenticationError (401)
    | ValidationError(errors: seq<map<string, string>>) // ninja's ValidationError
    | FieldValidationError(field: string)       // Django's ValidationError from a model field
    | SchemaError(field: string)                   // a response schema rejects its data
    | AttributeError(name: string)
    | TypeError(message: string)
    | ValueError(message: string)
    | IndexError
    | DatabaseError
    | DoesNotExist
    | MultipleObjectsReturned

  /** `isinstance(e, HttpError)`: ninja's AuthenticationError and the
      auth and not-found base errors are HttpErrors, the validation ones are not. */
  predicate IsHttpError(e: Exc)
  {
    e.HttpError? || e.AuthenticationError? || (e.Base? && e.err.cls != ValidationClass)
  }

  /** The HTTP status an HttpError carries. */
  function StatusOf(e: Exc): (s: int)
    requires IsHttpError(e)
    ensures e.AuthenticationError? ==> s == 401
  {
    match e
    case HttpError(s, _) => s
    case AuthenticationError(_) => 401
    case Base(b) => b.statusCode
  }

  datatype Outcome<+T> = Ok(value: T) | Raise(exc: Exc)

  /** `except HttpError: raise` followed by `except Exception: raise
      HttpError(500, message)`: the wrapper most controllers put around
      their body. */
  function ReraiseHttpOr500<T>(o: Outcome<T>, message: string): (r: Outcome<T>)
    ensures o.Ok? ==> r == o
    ensures o.Raise? && IsHttpError(o.exc) ==> r == o
    ensures o.Raise? && !IsHttpError(o.exc) ==> r == Raise(HttpError(500, message))
  {
    if o.Raise? && !IsHttpError(o.exc) then Raise(HttpError(500, message)) else o
  }

  /** After the wrapper, every failure is an HttpError. */
  lemma WrapperOnlyRaisesHttp<T>(o: Outcome<T>, message: string)
    ensures ReraiseHttpOr500(o, message).Raise? ==> IsHttpError(ReraiseHttpOr500(o, message).exc)
  {
  }
}
