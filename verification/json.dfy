/** A minimal JSON value, enough to carry permission rows and whatever the
    external encoder makes of a user. */
module Json {

  datatype Json =
    | JNull
    | JBool(b: bool)
    | JString(s: string)
    | JObject(fields: map<string, Json>)

  type JsonObject = map<string, Json>

  /** Like `optBoolean(key, false)`, restricted to JSON booleans: the
      boolean stored under `key`, false when the field is missing or holds
      anything else. */
  function OptBoolean(o: JsonObject, key: string): (b: bool)
    ensures b <==> key in o && o[key] == JBool(true)
  {
    key in o && o[key].JBool? && o[key].b
  }
}
