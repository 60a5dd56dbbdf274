/** Values produced by Python's json.loads, their truthiness, and the
    exceptions the record normalizer and the facades can raise. */
module JsonValues {

  /** A decoded JSON value. Numbers keep Python's int/float split; a float is
      modelled as an exact real. */
  datatype Json =
    | JNull
    | JBool(b: bool)
    | JInt(i: int)
    | JFloat(x: real)
    | JStr(s: string)
    | JArr(items: seq<Json>)
    | JObj(fields: map<string, Json>)

  /** Python's truth value: None, False, 0, 0.0 and empty containers are false. */
  predicate Truthy(v: Json)
  {
    match v
    case JNull => false
    case JBool(b) => b
    case JInt(i) => i != 0
    case JFloat(x) => x != 0.0
    case JStr(s) => s != ""
    case JArr(items) => items != []
    case JObj(fields) => fields != map[]
  }

  /** dict.get(k): the stored value, or None when the key is absent. */
  function Get(m: map<string, Json>, k: string): Json
  {
    if k in m then m[k] else JNull
  }

  /** The Python exceptions the modelled code can raise. */
  datatype Error =
    | TypeError
    | AttributeError
    | KeyError
    | ValueError
    | IndexError
    | JsonDecodeError
    | RequestError

  datatype Result<T> = Ok(value: T) | Err(error: Error)

  datatype Option<T> = None | Some(value: T)
}
