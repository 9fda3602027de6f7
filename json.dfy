/** Decoded JSON values, as the backend's HTTP client hands them to the parsers
    (Python dicts, lists, strings, numbers, booleans and None). */
module Json {
  datatype Json =
    | Null
    | Bool(b: bool)
    | Int(i: int)
    | Str(s: string)
    | Array(items: seq<Json>)
    | Object(fields: map<string, Json>)
}
