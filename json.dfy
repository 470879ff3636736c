/** The `serde_json::Value` the entry binary's `handle_rpc` inspects, and
    its `value["key"]` lookup. Numbers are integers here.
 */
module Json {

  datatype Value =
    | Null
    | Bool(b: bool)
    | Number(n: int)
    | Str(s: string)
    | Array(items: seq<Value>)
    | Object(fields: map<string, Value>)

  /** `value[key]`: the field's value, or `Null` when the field is missing
      or the value is not an object (indexing never panics). */
  function Index(v: Value, key: string): (r: Value)
    ensures r != Null ==> v.Object? && key in v.fields && v.fields[key] == r
    ensures v.Object? && key in v.fields ==> r == v.fields[key]
  {
    match v
    case Object(fields) => if key in fields then fields[key] else Null
    case _ => Null
  }
}
