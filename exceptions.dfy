/** The service-layer exception family (core/exceptions.py): a base class and
    four subclasses, each with its own default message. */
module Exceptions {
  import opened Base

  /** Which class of the family was raised. `BaseService` is the base class
      itself, raised directly. */
  datatype ErrorKind = NotFound | PermissionDenied | Validation | Conflict | BaseService

  function ClassName(k: ErrorKind): string
  {
    match k
    case NotFound => "NotFoundError"
    case PermissionDenied => "PermissionDeniedError"
    case Validation => "ValidationError"
    case Conflict => "ConflictError"
    case BaseService => "BaseServiceError"
  }

  /** The class attribute `default_message`. */
  function DefaultMessage(k: ErrorKind): (m: string)
    ensures m != ""
  {
    match k
    case NotFound => "Объект не найден"
    case PermissionDenied => "Доступ запрещён"
    case Validation => "Ошибка валидации"
    case Conflict => "Конфликт данных"
    case BaseService => "Произошла ошибка"
  }

  /** `isinstance(exc, cls)` within the family: every kind is a
      BaseServiceError, and a subclass is only an instance of itself. */
  predicate IsInstance(k: ErrorKind, cls: ErrorKind)
  {
    cls == BaseService || k == cls
  }

  /** A raised service error: its kind, the message it carries and the
      keyword arguments kept as `extra`. */
  datatype ServiceError = ServiceError(kind: ErrorKind, message: string, extra: map<string, string>)

  /** `Kind(message, **kwargs)`: `message or default_message`, and the
      keyword arguments verbatim. */
  function NewServiceError(kind: ErrorKind, message: Option<string>, kwargs: map<string, string>): (e: ServiceError)
    ensures e.kind == kind && e.extra == kwargs
    ensures message.Some? && message.value != "" ==> e.message == message.value
    ensures message.None? || message.value == "" ==> e.message == DefaultMessage(kind)
  {
    var m := if message.Some? && message.value != "" then message.value else DefaultMessage(kind);
    ServiceError(kind, m, kwargs)
  }

  /** Whatever the caller passes, a constructed error never has an empty message. */
  lemma MessageNeverEmpty(kind: ErrorKind, message: Option<string>, kwargs: map<string, string>)
    ensures NewServiceError(kind, message, kwargs).message != ""
  {
  }

  /** The five default messages are pairwise different, so a default message
      identifies the class that produced it. */
  lemma DefaultMessagesDistinct(a: ErrorKind, b: ErrorKind)
    ensures DefaultMessage(a) == DefaultMessage(b) ==> a == b
  {
    var ma, mb := DefaultMessage(a), DefaultMessage(b);
    if a != b {
      assert ma[0] != mb[0] || ma[1] != mb[1] || |ma| != |mb|;
    }
  }

  /** Every kind is an instance of the base class, and of no other subclass
      than its own. */
  lemma SubclassesDeriveFromBase(k: ErrorKind, cls: ErrorKind)
    ensures IsInstance(k, BaseService)
    ensures cls != BaseService ==> (IsInstance(k, cls) <==> k == cls)
  {
  }
}

/** DRF's exception hook (core/exception_handler.py): service errors become
    JSON responses with a status chosen by class. */
module ExceptionHandler {
  import opened Base
  import opened Exceptions

  /** What reached the handler: a service error, or any other exception
      (of which only its class name is kept). */
  datatype Exc = Service(error: ServiceError) | Other(className: string)

  datatype Response = Response(status: int, body: map<string, string>)

  /** The HTTP status chosen by the if/elif chain on the exception's class. */
  function StatusFor(k: ErrorKind): (s: int)
    ensures 400 <= s < 500
  {
    if IsInstance(k, NotFound) then 404
    else if IsInstance(k, PermissionDenied) then 403
    else if IsInstance(k, Validation) then 400
    else if IsInstance(k, Conflict) then 409
    else 400
  }

  /** `custom_exception_handler(exc, context)`, given `drf`, the response
      DRF's own handler produced for the same exception (None when it did
      not handle it). */
  function CustomExceptionHandler(exc: Exc, drf: Option<Response>): (r: Option<Response>)
    ensures drf.Some? ==> r == drf
    ensures drf.None? && exc.Other? ==> r.None?
    ensures drf.None? && exc.Service? ==> r.Some? && r.value.status == StatusFor(exc.error.kind)
    ensures drf.None? && exc.Service? ==> r.value.body.Keys == {"error", "message"} + exc.error.extra.Keys
  {
    if drf.Some? then drf
    else match exc
      case Other(_) => None
      case Service(e) =>
        Some(Response(StatusFor(e.kind),
                      map["error" := ClassName(e.kind), "message" := e.message] + e.extra))
  }

  /** The status table: 404, 403, 400, 409, and 400 for the base class. */
  lemma StatusTable()
    ensures StatusFor(NotFound) == 404 && StatusFor(PermissionDenied) == 403
    ensures StatusFor(Validation) == 400 && StatusFor(Conflict) == 409
    ensures StatusFor(BaseService) == 400
  {
  }

  /** The body carries the class name and message unless a keyword argument
      of the same name overrides them: `extra` is spread last and wins. */
  lemma BodyMerge(e: ServiceError, key: string)
    ensures var r := CustomExceptionHandler(Service(e), None);
      r.Some?
      && (key in e.extra ==> r.value.body[key] == e.extra[key])
      && (key == "error" && key !in e.extra ==> r.value.body[key] == ClassName(e.kind))
      && (key == "message" && key !in e.extra ==> r.value.body[key] == e.message)
  {
  }
}
