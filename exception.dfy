/** The four HTTP error classes: a fixed status, a default message, and the
    JSON response they turn into. */
module Exception {
  import opened Wrappers

  datatype ErrorClass = Forbidden | Unauthorized | NotFound | UnprocessableEntity

  function Status(c: ErrorClass): int {
    match c
    case Forbidden => 403
    case Unauthorized => 401
    case NotFound => 404
    case UnprocessableEntity => 422
  }

  function DefaultMessage(c: ErrorClass): string {
    match c
    case Forbidden => "Forbidden"
    case Unauthorized => "Unauthorized"
    case NotFound => "Not Found"
    case UnprocessableEntity => "Unprocessable Entity"
  }

  /** An error instance: its class, its `status` field and its `message`. */
  datatype HttpError = HttpError(cls: ErrorClass, status: int, message: string)

  /** `new XError(message)`; the default applies only when no message is
      passed (an empty string is kept). */
  function NewError(c: ErrorClass, message: Option<string>): (e: HttpError)
    ensures e.cls == c && e.status == Status(c)
    ensures message.Some? ==> e.message == message.value
    ensures message.None? ==> e.message == DefaultMessage(c)
  {
    HttpError(c, Status(c), message.GetOr(DefaultMessage(c)))
  }

  /** The JSON body `{error, code}`. */
  datatype JsonBody = JsonBody(error: string, code: int)

  datatype Response = Response(status: int, body: JsonBody)

  /** `toResponse()`: the message and the status in the body, and the
      status as the HTTP status. */
  function ToResponse(e: HttpError): (r: Response)
    ensures r.status == e.status && r.body.code == e.status && r.body.error == e.message
  {
    Response(e.status, JsonBody(e.message, e.status))
  }

  /** The class an HTTP status belongs to, if any. */
  function ClassOfStatus(status: int): Option<ErrorClass> {
    if status == 403 then Some(Forbidden)
    else if status == 401 then Some(Unauthorized)
    else if status == 404 then Some(NotFound)
    else if status == 422 then Some(UnprocessableEntity)
    else None
  }

  /** The status table, and that the response's status tells the class
      apart: the four statuses are distinct. */
  lemma StatusTable(c: ErrorClass, message: Option<string>)
    ensures Status(Forbidden) == 403 && Status(Unauthorized) == 401
    ensures Status(NotFound) == 404 && Status(UnprocessableEntity) == 422
    ensures ClassOfStatus(ToResponse(NewError(c, message)).status) == Some(c)
  {
  }

  /** A response built from a default-constructed error carries the class's
      default message and status. */
  lemma DefaultResponse(c: ErrorClass)
    ensures ToResponse(NewError(c, None)) == Response(Status(c), JsonBody(DefaultMessage(c), Status(c)))
  {
  }
}
