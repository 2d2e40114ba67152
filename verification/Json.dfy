/** JSON values as Python reads them.  Text encoding and decoding are parameters of what uses them. */
module Json {
  import opened Prelude

  /** A float is kept as its literal, so that every value has a finite text. */
  datatype Json =
    | Null
    | Bool(b: bool)
    | Int(n: int)
    | Float(literal: string)
    | Str(s: string)
    | Arr(items: seq<Json>)
    | Obj(fields: map<string, Json>)

  /** `json.loads`: None when it raises. */
  type Loader = string -> Option<Json>

  /** `value.get(key)`: an absent key and a null are both None. */
  function Get(j: Json, key: string): Json {
    if j.Obj? && key in j.fields then j.fields[key] else Null
  }

  /** A literal up to its exponent; NaN and Infinity have none. */
  function Mantissa(literal: string): string {
    if literal == "" || literal[0] == 'e' || literal[0] == 'E' then "" else [literal[0]] + Mantissa(literal[1..])
  }

  predicate Truthy(j: Json) {
    match j
    case Null => false
    case Bool(b) => b
    case Int(n) => n != 0
    case Float(literal) => exists c :: c in Mantissa(literal) && ('1' <= c <= '9' || c == 'N' || c == 'I')
    case Str(s) => s != ""
    case Arr(items) => items != []
    case Obj(fields) => fields != map[]
  }

  /** A bool counts as an int, equal to 0 or 1. */
  function AsIndex(j: Json): Option<int> {
    match j
    case Int(n) => Some(n)
    case Bool(b) => Some(if b then 1 else 0)
    case _ => None
  }
}
