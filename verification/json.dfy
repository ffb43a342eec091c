/** The JSON values (RFC 8259, section 3) that the contextual-data bag, the log
    record and the HTTP body carry. Objects keep their members in order, as a
    Python dict does; numbers are integers only. */
module Json {

  datatype JsonValue =
    | JNull
    | JBool(b: bool)
    | JInt(i: int)
    | JString(s: string)
    | JArray(items: seq<JsonValue>)
    | JObject(members: seq<(string, JsonValue)>)
}
