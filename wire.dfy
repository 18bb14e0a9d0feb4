/** JSON values as they travel over the chat socket, and the two truthiness
    rules (Python's on the server, JavaScript's in the browser) that the
    guards of both ends apply to them. */
module Wire {

  datatype Option<T> = None | Some(value: T)

  datatype Result<T, E> = Ok(value: T) | Err(error: E)

  /** A parsed JSON value. Numbers are integers: no frame of the protocol
      carries a fraction. */
  datatype Json =
    | JNull
    | JBool(b: bool)
    | JNum(n: int)
    | JStr(s: string)
    | JObj(fields: map<string, Json>)

  /** A top-level frame: a JSON object. */
  type Frame = map<string, Json>

  /** Python's `dict.get(key)`: the value, or `None` when the key is absent. */
  function Get(f: Frame, key: string): (r: Option<Json>)
    ensures r.Some? <==> key in f
    ensures r.Some? ==> r.value == f[key]
  {
    if key in f then Some(f[key]) else None
  }

  /** Python's `dict.get(key, default)`. */
  function GetOr(f: Frame, key: string, default: Json): (r: Json)
    ensures key in f ==> r == f[key]
    ensures key !in f ==> r == default
  {
    if key in f then f[key] else default
  }

  /** Python truthiness of an optional value (`None` for an absent key is falsy). */
  predicate PyTruthy(v: Option<Json>)
    ensures PyTruthy(v) ==> v.Some? && v.value != JNull
    ensures v.Some? && v.value.JStr? ==> (PyTruthy(v) <==> v.value.s != "")
  {
    match v
    case None => false
    case Some(j) =>
      match j
      case JNull => false
      case JBool(b) => b
      case JNum(n) => n != 0
      case JStr(s) => s != ""
      case JObj(m) => m != map[]
  }

  /** `data.get("event") == name` on the server, `data.event === name` in the
      browser: both hold exactly when the frame's event field is that string. */
  predicate HasEvent(f: Frame, name: string)
  {
    "event" in f && f["event"] == JStr(name)
  }
}
