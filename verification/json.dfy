/** JSON values as the minidev JSON library hands them to Java code. */
module Json {
  import opened Wrappers

  datatype Json =
    | JNull
    | JBool(b: bool)
    | JNumber(n: int)
    | JString(s: string)
    | JArray(elems: seq<Json>)
    | JObject(members: JsonObject)

  type JsonObject = map<string, Json>

  /** Reading a member of a JSON object: Java sees null both for a missing
      member and for a member whose value is JSON null. */
  function Get(obj: JsonObject, key: string): (r: Option<Json>)
    ensures r.None? <==> key !in obj || obj[key] == JNull
    ensures r.Some? ==> r.value == obj[key]
  {
    if key in obj && obj[key] != JNull then Some(obj[key]) else None
  }

  /** The Java class a JSON value has once parsed, as a failed cast names it.
      Numbers are named by their common superclass. */
  function JavaClassName(j: Json): string
  {
    match j
    case JNull => "null"
    case JBool(_) => "java.lang.Boolean"
    case JNumber(_) => "java.lang.Number"
    case JString(_) => "java.lang.String"
    case JArray(_) => "net.minidev.json.JSONArray"
    case JObject(_) => "net.minidev.json.JSONObject"
  }
}
