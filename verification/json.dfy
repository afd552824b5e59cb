/** JSON values as the server builds them: objects keep their members in
    insertion order, as Python dictionaries do when serialised. */
module Json {
  import opened Wrappers

  datatype Json =
    | JNull
    | JBool(b: bool)
    | JNum(n: int)
    | JStr(s: string)
    | JArr(items: seq<Json>)
    | JObj(fields: seq<(string, Json)>)

  /** The member names of an object, in order; a non-object has none. */
  function Keys(j: Json): seq<string> {
    if j.JObj? then seq(|j.fields|, i requires 0 <= i < |j.fields| => j.fields[i].0) else []
  }

  /** The string inside a JSON string, if it is one. */
  function Str(j: Json): Option<string> {
    if j.JStr? then Some(j.s) else None
  }

  /** The boolean inside a JSON boolean, if it is one. */
  function Bool(j: Json): Option<bool> {
    if j.JBool? then Some(j.b) else None
  }

  /** The integer inside a JSON number, if it is one. */
  function Num(j: Json): Option<int> {
    if j.JNum? then Some(j.n) else None
  }
}
