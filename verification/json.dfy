/** JSON values as the assistant builds and reads them. Objects keep their
    keys in insertion order, like the Python dictionaries they come from.
    Parsing and printing JSON text is outside this model. */
module Json {
  import opened Wrappers
  import opened OrderedMaps

  datatype Json =
    | JNull
    | JBool(b: bool)
    | JInt(i: int)
    | JStr(s: string)
    | JArr(items: seq<Json>)
    | JObj(fields: seq<(string, Json)>)

  /** `obj.get(k)` on an object; `None` for a missing key or a non-object. */
  function Field(j: Json, k: string): Option<Json> {
    if j.JObj? then Get(j.fields, k) else None
  }

  /** `obj.get(k)` when the value is expected to be a string. */
  function StrField(j: Json, k: string): Option<string> {
    match Field(j, k)
    case Some(JStr(s)) => Some(s)
    case _ => None
  }

  function EmptyObj(): Json {
    JObj([])
  }
}
