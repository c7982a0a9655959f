/** JSON values as `serde_json::Value` holds them. An object is a map from keys
    to values: a `Value` object never holds a key twice. */
module JsonValue {

  datatype Json =
    | Null
    | Bool(b: bool)
    | Num(n: real)
    | Str(s: string)
    | Arr(items: seq<Json>)
    | Obj(fields: map<string, Json>)

  /** The empty object `{}`. */
  const EmptyObject: Json := Obj(map[])

  /** How serde names the kind of an unexpected value in an "invalid type" message. */
  function KindName(j: Json): string {
    match j
    case Null => "null"
    case Bool(_) => "boolean"
    case Num(_) => "number"
    case Str(_) => "string"
    case Arr(_) => "sequence"
    case Obj(_) => "map"
  }
}
