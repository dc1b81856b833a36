/** The values `json.loads` can return. */
module Json {
  /** A JSON value as Python holds it after parsing: a `dict`, an `int`, a
      `float`, a `str`, a `bool`, a `list` or `None`. */
  datatype Json =
    | JObject(fields: map<string, Json>)
    | JInt(i: int)
    | JFloat(f: real)
    | JString(s: string)
    | JBool(b: bool)
    | JArray(items: seq<Json>)
    | JNull
}
