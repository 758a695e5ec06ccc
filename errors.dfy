/**
 * The API error taxonomy (app/utils/errors.py): each exception class fixes
 * a status code and a default message, and `to_dict` renders the error as
 * the JSON body of the response.
 */
module Errors {
  import opened Wrappers
  import opened JsonText

  /** The five subclasses of `APIError`. */
  datatype ErrorClass = ResourceNotFound | Authentication | Authorization | Validation | Conflict

  datatype APIError = APIError(message: string, statusCode: int, payload: Option<map<string, Json>>)

  /** `APIError(message, status_code=400, payload=None)` */
  function NewAPIError(message: string, statusCode: int := 400, payload: Option<map<string, Json>> := None): (e: APIError)
    ensures e.message == message && e.statusCode == statusCode && e.payload == payload
  {
    APIError(message, statusCode, payload)
  }

  function StatusOf(c: ErrorClass): int
  {
    match c
    case ResourceNotFound => 404
    case Authentication => 401
    case Authorization => 403
    case Validation => 400
    case Conflict => 409
  }

  function DefaultMessage(c: ErrorClass): string
  {
    match c
    case ResourceNotFound => "Resource not found"
    case Authentication => "Authentication failed"
    case Authorization => "Insufficient permissions"
    case Validation => "Validation failed"
    case Conflict => "Resource conflict"
  }

  /** The constructor of a subclass: its message defaults, its status is fixed. */
  function Raise(c: ErrorClass, message: Option<string> := None, payload: Option<map<string, Json>> := None): (e: APIError)
    ensures e.statusCode == StatusOf(c)
    ensures e.message == message.GetOr(DefaultMessage(c)) && e.payload == payload
  {
    NewAPIError(message.GetOr(DefaultMessage(c)), StatusOf(c), payload)
  }

  /** The error classes have distinct codes, except Validation, which shares the base's 400. */
  lemma StatusCodes(c: ErrorClass, d: ErrorClass)
    ensures NewAPIError("m").statusCode == 400
    ensures Raise(ResourceNotFound).statusCode == 404 && Raise(Authentication).statusCode == 401
    ensures Raise(Authorization).statusCode == 403 && Raise(Validation).statusCode == 400
    ensures Raise(Conflict).statusCode == 409
    ensures StatusOf(c) == StatusOf(d) ==> c == d
    ensures 400 <= StatusOf(c) < 500
  {
  }

  /** `dict(self.payload or ())`: a fresh copy; an empty payload is falsy like None. */
  function PayloadCopy(e: APIError): map<string, Json>
  {
    if e.payload.Some? then e.payload.value else map[]
  }

  /** `APIError.to_dict` */
  function ToDict(e: APIError): (d: map<string, Json>)
    ensures d.Keys == PayloadCopy(e).Keys + {"error"}
    ensures d["error"] == JStr(e.message)
    ensures forall k | k in PayloadCopy(e) && k != "error" :: d[k] == PayloadCopy(e)[k]
  {
    PayloadCopy(e)["error" := JStr(e.message)]
  }

  /** Without a payload the body is exactly {'error': message}. */
  lemma ToDictWithoutPayload(e: APIError)
    requires e.payload.None? || e.payload == Some(map[])
    ensures ToDict(e) == map["error" := JStr(e.message)]
  {
  }
}
