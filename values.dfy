/**
 * The Python values the client core handles: decoded JSON, the exceptions it
 * raises or lets through, and the few dictionary operations it performs on
 * decoded frames.
 */
module Values {

  datatype Option<T> = None | Some(value: T)

  /** A JSON value as `json.loads` produces it; numbers are modelled as integers. */
  datatype Json =
    | JNull
    | JBool(b: bool)
    | JNum(n: int)
    | JStr(s: string)
    | JArr(items: seq<Json>)
    | JObj(fields: map<string, Json>)

  /** Python truthiness of a decoded value (`if not x:`). */
  predicate Truthy(v: Json)
  {
    match v
    case JNull => false
    case JBool(b) => b
    case JNum(n) => n != 0
    case JStr(s) => s != ""
    case JArr(items) => items != []
    case JObj(fields) => fields != map[]
  }

  /** The falsy values are exactly Python's: `None`, `False`, zero and the empty string, list and dict. */
  lemma FalsyValues(v: Json)
    ensures !Truthy(v) <==> v in {JNull, JBool(false), JNum(0), JStr(""), JArr([]), JObj(map[])}
  {
  }

  /** The exceptions that travel out of the core. */
  datatype Failure =
    | Raised(arg: Json)       // `raise Exception(arg)`
    | KeyError(key: string)   // `d[key]` or `del d[key]` for a missing key
    | TypeError               // subscript of a non-dict, unhashable key, clashing keyword argument, bad call
    | AttributeError          // a method the value does not have (`.get`, `.startswith`, `None.write`)
    | IndexError              // `s[0]` on the empty string
    | DecodeError             // the frame text is not JSON
    | CancelledError          // `exception()` asked of a cancelled task

  /** Either the value a Python expression evaluates to, or the exception it raises. */
  datatype Result<T> = Ok(value: T) | Err(error: Failure)

  /** `v[key]` on a decoded value. */
  function Subscript(v: Json, key: string): (r: Result<Json>)
    ensures r.Ok? <==> v.JObj? && key in v.fields
    ensures r.Ok? ==> r.value == v.fields[key]
    ensures r.Err? ==> r.error == if v.JObj? then KeyError(key) else TypeError
  {
    match v
    case JObj(fields) => if key in fields then Ok(fields[key]) else Err(KeyError(key))
    case _ => Err(TypeError)
  }

  /** `v.get(key)`: `None` for a missing key; only a dict has the method. */
  function Get(v: Json, key: string): (r: Result<Json>)
    ensures r.Err? <==> !v.JObj?
    ensures r.Err? ==> r.error == AttributeError
    ensures Subscript(v, key).Ok? ==> r == Subscript(v, key)
    ensures v.JObj? && key !in v.fields ==> r == Ok(JNull)
  {
    match v
    case JObj(fields) => Ok(if key in fields then fields[key] else JNull)
    case _ => Err(AttributeError)
  }

  /** The object `{key: value}`. */
  function Single(key: string, value: Json): Json
  {
    JObj(map[key := value])
  }
}
