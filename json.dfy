/** Parsed JSON values, as the tools receive them from `json.loads`, and the
    `dict.get` lookups the tool front-ends perform on them. */
module Json {
  import opened Wrappers
  import PyText

  /** A parsed JSON value. Floating-point numbers are not modelled. */
  datatype Json =
    | JNull
    | JBool(b: bool)
    | JInt(i: int)
    | JStr(s: string)
    | JArray(items: seq<Json>)
    | JObject(fields: map<string, Json>)

  /** What `args.get(key, None)` gives: an `AttributeError` when the parsed
      arguments are not a JSON object, `None` when the key is absent or bound
      to `null`, otherwise the bound value. */
  datatype Lookup = NotAMapping | Missing | Found(value: Json)

  function Get(args: Json, key: string): (r: Lookup)
    ensures r.NotAMapping? <==> !args.JObject?
    ensures r.Found? ==> args.JObject? && key in args.fields && r.value == args.fields[key] && r.value != JNull
    ensures r.Missing? ==> args.JObject? && (key !in args.fields || args.fields[key] == JNull)
  {
    if !args.JObject? then NotAMapping
    else if key !in args.fields || args.fields[key] == JNull then Missing
    else Found(args.fields[key])
  }

  /** The integer Python compares when the value is an `int` or a `bool`
      (`True` is 1); `None` for the types whose comparison with an `int`
      raises `TypeError`. */
  function AsInt(j: Json): Option<int>
  {
    match j
    case JInt(i) => Some(i)
    case JBool(b) => Some(if b then 1 else 0)
    case _ => None
  }

  /** f-string formatting of an `int` or `bool` value. */
  function Format(j: Json): string
    requires AsInt(j).Some?
  {
    match j
    case JBool(b) => if b then "True" else "False"
    case JInt(i) => PyText.IntToString(i)
  }
}
