/**
 * mangadex/errors.py: the library's exception classes and the fields an
 * `HTTPException` takes from the server's error object.
 */
module Errors {
  import opened Wrappers
  import opened Python

  /** The library's classes and the built-in classes they are compared with. */
  datatype ExceptionClass =
    | BaseException | Exception | OSError
    | MangaDexException | NotLoggedIn | ConverterError
    | HTTPException | ServerError | Forbidden

  /** The direct base class. */
  function Base(c: ExceptionClass): (b: Option<ExceptionClass>)
    ensures b.Some? ==> Depth(b.value) < Depth(c)
  {
    match c
    case BaseException => None
    case Exception => Some(BaseException)
    case OSError => Some(Exception)
    case MangaDexException => Some(BaseException)
    case NotLoggedIn => Some(MangaDexException)
    case ConverterError => Some(MangaDexException)
    case HTTPException => Some(MangaDexException)
    case ServerError => Some(HTTPException)
    case Forbidden => Some(HTTPException)
  }

  function Depth(c: ExceptionClass): nat {
    match c
    case BaseException => 0
    case Exception => 1
    case OSError => 2
    case MangaDexException => 1
    case NotLoggedIn => 2
    case ConverterError => 2
    case HTTPException => 2
    case ServerError => 3
    case Forbidden => 3
  }

  /** `issubclass(c, d)` */
  predicate IsSubclass(c: ExceptionClass, d: ExceptionClass)
    decreases Depth(c)
  {
    c == d || (Base(c).Some? && IsSubclass(Base(c).value, d))
  }

  predicate IsLibraryClass(c: ExceptionClass) {
    c in {MangaDexException, NotLoggedIn, ConverterError, HTTPException, ServerError, Forbidden}
  }

  /** Every library error is a `MangaDexException` and, because that class derives from
      `BaseException` directly, neither an `Exception` nor an `OSError`: the `except OSError`
      of the request loop never catches one. */
  lemma LibraryErrorsAreNotOSErrors(c: ExceptionClass)
    requires IsLibraryClass(c)
    ensures IsSubclass(c, MangaDexException)
    ensures !IsSubclass(c, Exception) && !IsSubclass(c, OSError)
    ensures IsSubclass(c, HTTPException) <==> c in {HTTPException, ServerError, Forbidden}
  {
  }

  /** An `HTTPException`, `ServerError` or `Forbidden` instance. */
  datatype HTTPError = HTTPError(
    cls: ExceptionClass,
    id: PyValue,
    status: PyValue,
    title: PyValue,
    detail: PyValue,
    context: PyValue)

  /** `cls(err)` for one of the HTTP error classes: each field is `err.get(name)`, that is the
      server's value when the key is present and `None` when it is missing. */
  function NewHTTPError(cls: ExceptionClass, err: map<string, PyValue>): (e: HTTPError)
    requires IsSubclass(cls, HTTPException)
    ensures e.cls == cls
    ensures e.id == (if "id" in err then err["id"] else PNone)
    ensures e.status == (if "status" in err then err["status"] else PNone)
    ensures e.title == (if "title" in err then err["title"] else PNone)
    ensures e.detail == (if "detail" in err then err["detail"] else PNone)
    ensures e.context == (if "context" in err then err["context"] else PNone)
  {
    HTTPError(cls, Get(err, "id"), Get(err, "status"), Get(err, "title"), Get(err, "detail"), Get(err, "context"))
  }

  /** `str(e)`: `'{0} (code: {1})'.format(detail, status)`; `None` when a field is neither None,
      a bool, an int nor a str (the text of containers is not modelled). */
  function Message(e: HTTPError): Option<string> {
    match (Str(e.detail), Str(e.status))
    case (Some(d), Some(s)) => Some(d + " (code: " + s + ")")
    case _ => None
  }

  /** The text of the forbidden status code. */
  lemma ForbiddenStatusText()
    ensures Str(PInt(403)) == Some("403")
  {
    assert NatToString(4) == "4";
    assert NatToString(40) == NatToString(4) + ['0'] == "40";
    assert NatToString(403) == NatToString(40) + ['3'] == "403";
  }

  /** A forbidden response with a string detail and status 403: the message carries both, and
      entries the server left out are `None`. */
  lemma ForbiddenMessage(err: map<string, PyValue>, detail: string)
    requires "status" in err && err["status"] == PInt(403)
    requires "detail" in err && err["detail"] == PStr(detail)
    ensures var e := NewHTTPError(Forbidden, err);
            && ("context" !in err ==> e.context == PNone)
            && Message(e) == Some(detail + " (code: 403)")
  {
    ForbiddenStatusText();
    assert Message(NewHTTPError(Forbidden, err)) == Some(detail + " (code: " + "403" + ")");
    assert detail + " (code: " + "403" + ")" == detail + (" (code: " + "403" + ")");
    assert " (code: " + "403" + ")" == " (code: 403)";
  }
}
