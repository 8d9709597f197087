/** Decoded JSON values, as json.loads produces them (numbers are modelled as integers). */
module JsonValues {
  import opened Wrappers
  import opened Errors

  /** `Null` is also Python's None: the source never distinguishes the two. */
  datatype Json =
    | Null
    | Bool(b: bool)
    | Num(n: int)
    | Str(s: string)
    | Arr(items: seq<Json>)
    | Obj(fields: map<string, Json>)

  /** Python's `value[key]` for a string key: only an object can be subscripted by a string. */
  function Subscript(value: Json, key: string): (r: Result<Json, Error>)
    ensures r.Ok? <==> value.Obj? && key in value.fields
    ensures r.Ok? ==> r.value == value.fields[key]
    ensures r.Err? && value.Obj? ==> r.error == KeyError(key)
    ensures r.Err? && !value.Obj? ==> r.error == TypeError
  {
    match value
    case Obj(fields) => if key in fields then Ok(fields[key]) else Err(KeyError(key))
    case _ => Err(TypeError)
  }
}
