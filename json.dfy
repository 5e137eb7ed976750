/**
 * The `unknown` values that the services receive (create/update inputs, backup payloads,
 * setting values).  JavaScript numbers are modelled as reals, so "is an integer" is a real test.
 */
module Json {

  datatype Json =
    | JNull
    | JBool(b: bool)
    | JNum(n: real)
    | JStr(s: string)
    | JArr(items: seq<Json>)
    | JObj(fields: map<string, Json>)
}
