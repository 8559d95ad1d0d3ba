/** JSON values as Flask's `request.get_json()` hands them to the backend and
    as the frontend's `JSON.stringify` writes them. Numbers are integers only. */
module Json {
  datatype Json =
    | JNull
    | JBool(b: bool)
    | JNum(n: int)
    | JStr(s: string)
    | JArr(items: seq<Json>)
    | JObj(fields: map<string, Json>)

  /** Python truthiness of the decoded value (`if not data.get(...)`). */
  predicate Truthy(v: Json)
  {
    match v
    case JNull => false
    case JBool(b) => b
    case JNum(n) => n != 0
    case JStr(s) => s != ""
    case JArr(items) => |items| > 0
    case JObj(fields) => |fields| > 0
  }

  /** `data.get(key)`: an absent key reads as `None`. */
  function Get(body: map<string, Json>, key: string): (v: Json)
    ensures key !in body ==> v == JNull
  {
    if key in body then body[key] else JNull
  }
}
