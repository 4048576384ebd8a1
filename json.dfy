/** JSON values, as the websocket layer builds and parses them. */
module Json {
  import opened Base

  datatype Json =
    | JNull
    | JBool(b: bool)
    | JInt(i: int)
    | JStr(s: string)
    | JList(items: seq<Json>)
    | JObject(fields: map<string, Json>)

  /** `data.get(key)` on a decoded object: None when the key is missing. */
  function Get(fields: map<string, Json>, key: string): (r: Json)
    ensures key !in fields ==> r == JNull
    ensures key in fields ==> r == fields[key]
  {
    if key in fields then fields[key] else JNull
  }

  /** An optional id the way a serializer prints it: its number, or null. */
  function IdOrNull(o: Option<int>): Json
  {
    match o
    case None => JNull
    case Some(i) => JInt(i)
  }
}
