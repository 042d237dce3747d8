/**
 * The server boundary: JSON request bodies as the route handlers read them,
 * and the status-plus-JSON responses they return.
 */
module Http {
  import opened Wrappers

  /** A JSON value after `request.json()`, plus `undefined` for a missing property. */
  datatype Value =
    | Undefined
    | Null
    | Bool(b: bool)
    /** A JSON number; only integers are modelled, which is all that truthiness needs (`n != 0`). */
    | Number(n: int)
    | Str(s: string)
    | Array(items: seq<Value>)
    | Object(fields: map<string, Value>)

  /** What `await request.json()` yields: a value, or the parse error it throws. */
  datatype RequestBody = Parsed(value: Value) | Unparsable(reason: string)

  /** The JSON bodies the two routes answer with. */
  datatype ResponseBody =
    | AnalysisBody(analysis: string)
    | ReplyBody(response: string)
    | ErrorBody(error: string, message: Option<string>)

  datatype Response = Response(status: int, body: ResponseBody)

  /** The message of the `TypeError` a property read on `null` throws. */
  const NullReadError := "TypeError: cannot read a property of null"

  /** JavaScript truthiness of a JSON value. */
  predicate Truthy(v: Value) {
    match v
    case Undefined => false
    case Null => false
    case Bool(b) => b
    case Number(n) => n != 0
    case Str(s) => s != ""
    case Array(_) => true
    case Object(_) => true
  }

  /**
   * `value.key` (or `const { key } = value`) for a key no built-in prototype
   * defines: an object's own field, `undefined` on any other non-null value,
   * and a thrown `TypeError` on `null` and `undefined`.
   */
  function Read(v: Value, key: string): (r: Result<Value, string>)
    ensures r.Failure? <==> v.Null? || v.Undefined?
    ensures r.Success? && !v.Object? ==> r.value == Undefined
    ensures r.Success? && v.Object? ==> r.value == (if key in v.fields then v.fields[key] else Undefined)
  {
    match v
    case Undefined => Failure(NullReadError)
    case Null => Failure(NullReadError)
    case Object(fields) => Success(if key in fields then fields[key] else Undefined)
    case _ => Success(Undefined)
  }
}
