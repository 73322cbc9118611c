/** The JSON values the pipeline receives from outside (request bodies, conversation
    history, the language model's parsed reply) and the JavaScript operations it applies to
    them without knowing their shape: truthiness, property access and `${...}` conversion. */
module Json {
  import opened Common
  import opened Text

  /** A value JSON.parse can produce; numbers are restricted to integers. */
  datatype Json =
    | JNull
    | JBool(b: bool)
    | JNum(n: int)
    | JStr(s: string)
    | JArr(items: seq<Json>)
    | JObj(fields: map<string, Json>)

  /** JavaScript truthiness: null, false, 0 and "" are falsy; arrays and objects are truthy. */
  predicate Truthy(v: Json) {
    match v
    case JNull => false
    case JBool(b) => b
    case JNum(n) => n != 0
    case JStr(s) => s != ""
    case JArr(_) => true
    case JObj(_) => true
  }

  /** `v || fallback` where the fallback is null: a falsy value becomes null. */
  function OrNull(v: Option<Json>): (r: Json)
    ensures r == JNull || (v.Some? && r == v.value && Truthy(r))
    ensures v.Some? && Truthy(v.value) ==> r == v.value
  {
    if v.Some? && Truthy(v.value) then v.value else JNull
  }

  /** Property access `v.key`: None is `undefined`; reading a property of null throws. */
  function Get(v: Json, key: string): (r: Result<Option<Json>>)
    ensures r.Err? <==> v == JNull
    ensures v.JObj? ==> r == Ok(if key in v.fields then Some(v.fields[key]) else None)
  {
    match v
    case JNull => Err("Cannot read properties of null (reading '" + key + "')")
    case JObj(m) => Ok(if key in m then Some(m[key]) else None)
    case _ => Ok(None)
  }

  /** `${v}`: the string conversion of a template literal. */
  function ToText(v: Json): string
    decreases v
  {
    match v
    case JNull => "null"
    case JBool(b) => if b then "true" else "false"
    case JNum(n) => IntToString(n)
    case JStr(s) => s
    case JArr(items) =>
      Join(seq(|items|, i requires 0 <= i < |items| => if items[i] == JNull then "" else ToText(items[i])), ",")
    case JObj(_) => "[object Object]"
  }

  /** `${v}` for a value that may be `undefined`. */
  function OptText(v: Option<Json>): string {
    if v.None? then "undefined" else ToText(v.value)
  }
}
