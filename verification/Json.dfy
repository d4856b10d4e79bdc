/** Parsed JSON as the JSON-RPC layer sees it. */
module Json {

  /** Numbers that are not 64-bit integers carry nothing the code looks at. */
  datatype Value =
    | Null
    | Bool(b: bool)
    | Int(n: int)
    | OtherNumber
    | Str(s: string)
    | Arr(items: seq<Value>)
    | Obj(fields: map<string, Value>)

  /** Field access on any value; only objects have fields. */
  function Get(v: Value, key: string): Value
    requires Has(v, key)
  {
    v.fields[key]
  }

  predicate Has(v: Value, key: string) { v.Obj? && key in v.fields }
}
