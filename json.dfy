/** JSON values as exchanged between the frontend and the backend. */
module Json {

  /** Numbers are integers only; object members are keyed by their exact name. */
  datatype Json =
    | JNull
    | JBool(b: bool)
    | JNum(n: int)
    | JStr(s: string)
    | JArr(items: seq<Json>)
    | JObj(fields: map<string, Json>)
}
