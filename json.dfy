/** JSON values as the Qt JSON classes hand them to the device service. */
module Json {

  /** A JSON value; numbers are kept as integers because the service never reads one. */
  datatype JsonValue =
    | JNull
    | JBool(b: bool)
    | JNum(n: int)
    | JStr(s: string)
    | JArr(items: seq<JsonValue>)
    | JObj(fields: map<string, JsonValue>)

  /** The top-level object of a document, or the empty object when the document holds anything else. */
  function ObjectOf(doc: JsonValue): map<string, JsonValue>
  {
    if doc.JObj? then doc.fields else map[]
  }

  /** The string stored under `key`, or "" when the key is absent or holds a value that is not a string. */
  function StringValue(obj: map<string, JsonValue>, key: string): string
  {
    if key in obj && obj[key].JStr? then obj[key].s else ""
  }
}
