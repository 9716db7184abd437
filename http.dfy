/**
 * The web-framework values the service handles: an HTTP error (FastAPI's
 * HTTPException) and a parsed JSON value with Python's truthiness and
 * `dict.get`.
 */
module Http {

  /** An `HTTPException(status_code, detail)` as the client sees it. */
  datatype HttpError = HttpError(status: int, detail: string)

  function BadRequest(detail: string): HttpError {
    HttpError(400, detail)
  }

  function UnsupportedMediaType(detail: string): HttpError {
    HttpError(415, detail)
  }

  /** A decoded JSON document, as Python's `json` module builds it. */
  datatype Json =
    | JNull
    | JBool(b: bool)
    | JNumber(n: real)
    | JString(s: string)
    | JArray(items: seq<Json>)
    | JObject(members: map<string, Json>)

  /** Python's `bool(v)` on the decoded value: `None`, `False`, `0`, `""`, `[]` and `{}` are falsy. */
  predicate Truthy(v: Json) {
    match v
    case JNull => false
    case JBool(b) => b
    case JNumber(n) => n != 0.0
    case JString(s) => |s| > 0
    case JArray(items) => |items| > 0
    case JObject(members) => |members| > 0
  }

  /** `members.get(key)`: the value under `key`, or `None` (JSON null) when absent. */
  function Get(members: map<string, Json>, key: string): Json {
    if key in members then members[key] else JNull
  }
}
