/** Dynamic values as the JavaScript client and the Python handlers see them. */
module Values {
  import opened Wrappers

  /** A JavaScript value, as far as the client's comparisons and `||`
      defaults distinguish them. `JsNaN` is the one number that is falsy
      besides zero and that no comparison holds of. */
  datatype JsValue =
    | JsUndefined
    | JsNull
    | JsBool(b: bool)
    | JsNum(x: real)
    | JsNaN
    | JsStr(s: string)

  /** JavaScript truthiness. */
  predicate Truthy(v: JsValue) {
    match v
    case JsUndefined => false
    case JsNull => false
    case JsBool(b) => b
    case JsNum(x) => x != 0.0
    case JsNaN => false
    case JsStr(s) => s != ""
  }

  /** JavaScript `a || b`. */
  function Or(a: JsValue, b: JsValue): (r: JsValue)
    ensures Truthy(a) ==> r == a
    ensures !Truthy(a) ==> r == b
  {
    if Truthy(a) then a else b
  }

  /** A field of a JSON request body as a Flask handler reads it. Numbers,
      booleans, arrays and objects in a string field are not modelled. */
  datatype Field = Absent | Null | Text(s: string)

  /** Python `data.get(key)`: an absent key and JSON `null` both give `None`. */
  function Get(f: Field): (r: Option<string>)
    ensures r.Some? <==> f.Text?
  {
    match f
    case Text(s) => Some(s)
    case _ => None
  }

  /** Python `data.get(key, default)`: only an absent key takes the default;
      an explicit `null` stays `None`. */
  function GetOr(f: Field, default: string): (r: Option<string>)
    ensures f.Absent? ==> r == Some(default)
    ensures f.Null? ==> r == None
    ensures f.Text? ==> r == Some(f.s)
  {
    match f
    case Absent => Some(default)
    case Null => None
    case Text(s) => Some(s)
  }

  /** Python truthiness of an optional string: `None` and `""` are falsy. */
  predicate PyTruthy(v: Option<string>) {
    v.Some? && v.value != ""
  }

  /** A value of a parsed JSON request body as a Flask handler sees it. */
  datatype PyValue =
    | PyNone
    | PyBool(b: bool)
    | PyNum(x: real)
    | PyStr(s: string)
    | PyContainer(empty: bool)

  /** Python truthiness: `None`, `False`, zero, `""` and empty containers
      are falsy. */
  predicate PyTrue(v: PyValue) {
    match v
    case PyNone => false
    case PyBool(b) => b
    case PyNum(x) => x != 0.0
    case PyStr(s) => s != ""
    case PyContainer(empty) => !empty
  }

  /** The number a value stands for in an ordering comparison: booleans
      compare as 0 and 1; every other non-number raises `TypeError`. */
  function AsNumber(v: PyValue): (r: Option<real>)
    ensures r.Some? <==> v.PyNum? || v.PyBool?
  {
    match v
    case PyNum(x) => Some(x)
    case PyBool(b) => Some(if b then 1.0 else 0.0)
    case _ => None
  }

  /** The settled outcome of a client request: the response data, or the
      error value the server sent (`err.response?.data?.error`, undefined
      when the response has none). */
  datatype Response<T> = Succeeded(data: T) | Failed(error: JsValue)
}
