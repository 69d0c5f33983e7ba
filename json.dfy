/** JSON values, as the dashboard and the Go services exchange them.
    Numbers are integers here. A fractional number, such as a fractional
    slug used as a settings key, is not modelled. */
module Json {

  datatype Value =
    | JNull
    | JBool(b: bool)
    | JNum(n: int)
    | JStr(s: string)
    | JArr(items: seq<Value>)
    | JObj(fields: map<string, Value>)

  /** A JavaScript object: its own enumerable properties, by key. */
  type Obj = map<string, Value>
}
