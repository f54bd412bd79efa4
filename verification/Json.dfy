/** Decoded JSON values, as the scripts see them after parsing. */
module Json {
  import opened Shapes

  datatype Value =
    | Null
    | Bool(flag: bool)
    | Num(number: int)
    | Str(text: string)
    | Arr(items: seq<Value>)
    | Obj(members: map<string, Value>)

  /** `value.get(key)` where a missing member and a value that is no object are told apart from null. */
  function Get(v: Value, key: string): Option<Value> {
    if v.Obj? && key in v.members then Some(v.members[key]) else None
  }
}
