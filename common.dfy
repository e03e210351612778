/** Shared vocabulary of the MedLog backend model: record ids, the HTTP error
    taxonomy the route handlers emit, and JavaScript truthiness of request fields. */
module Common {

  /** Record ids. The database assigns a fresh uuid to every row; the model draws
      them from a counter held by the store. */
  type Id = nat

  datatype Option<+T> = None | Some(value: T)

  /** An error response: the HTTP status code and the `{error: message}` body. */
  datatype HttpError =
    | BadRequest(message: string)     // 400
    | Unauthorized(message: string)   // 401
    | Forbidden(message: string)      // 403
    | NotFound(message: string)       // 404
    | Conflict(message: string)       // 409
    | ServerError(message: string)    // 500
  {
    function Code(): (c: int)
      ensures c in {400, 401, 403, 404, 409, 500}
    {
      match this
      case BadRequest(_) => 400
      case Unauthorized(_) => 401
      case Forbidden(_) => 403
      case NotFound(_) => 404
      case Conflict(_) => 409
      case ServerError(_) => 500
    }
  }

  /** Every handler either answers with a payload or fails with exactly one error. */
  datatype Result<+T> = Ok(value: T) | Err(error: HttpError)

  /** A string field of a JSON request body: None when the key is absent (or
      null). JavaScript's `!field` holds exactly when the field is absent or the
      empty string. */
  type Field = Option<string>

  predicate Truthy(f: Field) {
    f.Some? && f.value != ""
  }

  /** `field || fallback` */
  function OrElse(f: Field, fallback: string): (s: string)
    ensures Truthy(f) ==> s == f.value
    ensures !Truthy(f) ==> s == fallback
  {
    if Truthy(f) then f.value else fallback
  }

  /** `s.startsWith(prefix)` */
  predicate StartsWith(s: string, prefix: string) {
    |prefix| <= |s| && s[..|prefix|] == prefix
  }

  datatype Role = DOCTOR | PATIENT

  /** `['DOCTOR', 'PATIENT'].includes(s)` together with the value it selects. */
  function ParseRole(s: string): (r: Option<Role>)
    ensures r == Some(DOCTOR) <==> s == "DOCTOR"
    ensures r == Some(PATIENT) <==> s == "PATIENT"
    ensures r.None? <==> s != "DOCTOR" && s != "PATIENT"
  {
    if s == "DOCTOR" then Some(DOCTOR)
    else if s == "PATIENT" then Some(PATIENT)
    else None
  }

  function RoleName(r: Role): (s: string)
    ensures ParseRole(s) == Some(r)
  {
    match r
    case DOCTOR => "DOCTOR"
    case PATIENT => "PATIENT"
  }
}
