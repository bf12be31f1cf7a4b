/** Values shared by the request core: parsed JSON bodies, the exceptions the
    core can raise, and the result of an operation that may raise. */
module Values {

  datatype Option<+T> = None | Some(value: T)

  /** A parsed JSON value, as `json.loads` produces it. Numbers are modelled
      as integers only. */
  datatype Json =
    | JNull
    | JBool(b: bool)
    | JNum(n: int)
    | JStr(s: string)
    | JArr(items: seq<Json>)
    | JObj(fields: map<string, Json>)

  /** Python truthiness of a JSON value, as tested by `x or y`. */
  predicate Truthy(j: Json) {
    match j
    case JNull => false
    case JBool(b) => b
    case JNum(n) => n != 0
    case JStr(s) => s != ""
    case JArr(items) => items != []
    case JObj(fields) => fields != map[]
  }

  /** `d.get(key)` on a dict: a missing key reads as `None`, which is the
      same Python value as a JSON `null`. */
  function Field(d: map<string, Json>, key: string): Json
  {
    if key in d then d[key] else JNull
  }

  /** What the core raises. */
  datatype Failure =
    | /** `eskiz_sms.exceptions.BadRequest(message, status, status_code)` */
      BadRequest(message: Json, status: Json, statusCode: int)
    | /** `AttributeError`: `.get` called on a JSON body that is not an object */
      NotADict
    | /** `AttributeError`: `.replace` called on a phone number that is not a string */
      NotAString
    | /** `KeyError`: the status code has no entry in the status-phrase table */
      UnknownStatus(code: int)
    | /** `AttributeError`: `None.status_code`, the dereference of an unset response */
      NoneResponse

  /** Either a returned value or a raised exception. */
  datatype Result<+T> = Ok(value: T) | Raised(error: Failure)
}
