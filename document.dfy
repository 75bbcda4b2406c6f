/** The JSON document `validation_results.json` as `json.load` returns it. Numbers that
    JSON writes without a fraction load as integers, the others as floats. */
module Document {

  datatype Json =
    | JNull
    | JBool(b: bool)
    | JInt(i: int)
    | JFloat(r: real)
    | JNaN
    | JStr(s: string)
    | JArr(items: seq<Json>)
    | JObj(fields: map<string, Json>)
}
