/** The server's `HttpError` and its factories: every error the invoice engine
    raises is one of these, carrying the HTTP status the error handler answers with. */
module HttpErrors {
  import opened Wrappers

  /** One entry of an error payload: the offending field path and a message. */
  datatype Issue = Issue(path: seq<string>, message: string)

  /** The `{ error: [...] }` object attached to an error. */
  datatype ErrorPayload = ErrorPayload(error: seq<Issue>)

  datatype HttpError = HttpError(name: string, status: int, message: string, payload: Option<ErrorPayload>)

  /** The kinds of error the factories build. */
  datatype ErrorKind = BadRequest | Unauthorized | Forbidden | NotFound | Conflict | Unprocessable {

    /** The HTTP status of each kind. */
    function Status(): (code: int)
      ensures 400 <= code < 500
    {
      match this
      case BadRequest => 400
      case Unauthorized => 401
      case Forbidden => 403
      case NotFound => 404
      case Conflict => 409
      case Unprocessable => 422
    }
  }

  /** The kind an HTTP status stands for, if any. */
  function KindOfStatus(status: int): Option<ErrorKind> {
    if status == 400 then Some(BadRequest)
    else if status == 401 then Some(Unauthorized)
    else if status == 403 then Some(Forbidden)
    else if status == 404 then Some(NotFound)
    else if status == 409 then Some(Conflict)
    else if status == 422 then Some(Unprocessable)
    else None
  }

  /** The status of a kind identifies the kind, and only a kind's own status does. */
  lemma KindStatusRoundTrip(kind: ErrorKind, status: int)
    ensures KindOfStatus(kind.Status()) == Some(kind)
    ensures KindOfStatus(status) == Some(kind) <==> status == kind.Status()
  {
  }

  /** `new HttpError(status, message, payload)`: named `HttpError`, status and
      message kept as given, the payload attached only when one is supplied. */
  function NewHttpError(status: int, message: string, payload: Option<ErrorPayload>): (e: HttpError)
    ensures e.name == "HttpError" && e.status == status && e.message == message
    ensures e.payload.Some? <==> payload.Some?
    ensures payload.Some? ==> e.payload == payload
  {
    HttpError("HttpError", status, message, payload)
  }

  /** `badRequest(message, payload)`. */
  function BadRequestError(message: string, payload: Option<ErrorPayload>): (e: HttpError)
    ensures KindOfStatus(e.status) == Some(BadRequest) && e.status == 400
    ensures e.name == "HttpError" && e.message == message && e.payload == payload
  {
    NewHttpError(BadRequest.Status(), message, payload)
  }

  /** `unauthorized(message)`: never carries a payload. */
  function UnauthorizedError(message: string): (e: HttpError)
    ensures KindOfStatus(e.status) == Some(Unauthorized) && e.status == 401
    ensures e.name == "HttpError" && e.message == message && e.payload.None?
  {
    NewHttpError(Unauthorized.Status(), message, None)
  }

  /** `forbidden(message)`: never carries a payload. */
  function ForbiddenError(message: string): (e: HttpError)
    ensures KindOfStatus(e.status) == Some(Forbidden) && e.status == 403
    ensures e.name == "HttpError" && e.message == message && e.payload.None?
  {
    NewHttpError(Forbidden.Status(), message, None)
  }

  /** `notFound(message)`: never carries a payload. */
  function NotFoundError(message: string): (e: HttpError)
    ensures KindOfStatus(e.status) == Some(NotFound) && e.status == 404
    ensures e.name == "HttpError" && e.message == message && e.payload.None?
  {
    NewHttpError(NotFound.Status(), message, None)
  }

  /** `conflict(message, payload)`. */
  function ConflictError(message: string, payload: Option<ErrorPayload>): (e: HttpError)
    ensures KindOfStatus(e.status) == Some(Conflict) && e.status == 409
    ensures e.name == "HttpError" && e.message == message && e.payload == payload
  {
    NewHttpError(Conflict.Status(), message, payload)
  }

  /** `unprocessable(message, payload)`. */
  function UnprocessableError(message: string, payload: Option<ErrorPayload>): (e: HttpError)
    ensures KindOfStatus(e.status) == Some(Unprocessable) && e.status == 422
    ensures e.name == "HttpError" && e.message == message && e.payload == payload
  {
    NewHttpError(Unprocessable.Status(), message, payload)
  }

  /** The error carries exactly one issue, on the one-element path `[field]`. */
  predicate HasSingleIssueAt(e: HttpError, field: string) {
    e.payload.Some? && |e.payload.value.error| == 1 && e.payload.value.error[0].path == [field]
  }
}
