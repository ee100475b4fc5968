/** The JSON-shaped values that the project records and metadata dictionaries hold. */
module Json {
  import opened Text

  /** A JSON value of the kinds the records use: strings, integers, null and nested objects. */
  datatype Value = Str(s: string) | Int(i: int) | Null | Obj(fields: map<string, Value>)

  /** A Python `dict` with string keys. */
  type Dict = map<string, Value>

  /** `d.get(key, default)` */
  function Get(d: Dict, key: string, default: Value): Value {
    if key in d then d[key] else default
  }

  /** `str(v)`, as an f-string renders it; a nested object is shown only as braces (see README). */
  function Display(v: Value): string {
    match v
    case Str(s) => s
    case Int(i) => IntToString(i)
    case Null => "None"
    case Obj(_) => "{...}"
  }
}
