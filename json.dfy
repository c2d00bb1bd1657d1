/**
 * Decoded JSON values as Python's json module produces them, shared by the
 * configuration tree, the request payloads and the event-stream chunks.
 */
module Json {

  datatype Option<+T> = None | Some(value: T)

  /** A JSON value; an object is a map from keys to values (Python's dict). */
  datatype Json =
    | Null
    | Bool(b: bool)
    | Int(i: int)
    | Float(r: real)
    | Str(s: string)
    | Arr(items: seq<Json>)
    | Obj(fields: map<string, Json>)

  /** Python truthiness of a decoded value (what `if value:` tests). */
  predicate Truthy(j: Json)
  {
    match j
    case Null => false
    case Bool(b) => b
    case Int(i) => i != 0
    case Float(r) => r != 0.0
    case Str(s) => s != ""
    case Arr(a) => a != []
    case Obj(m) => m != map[]
  }
}
