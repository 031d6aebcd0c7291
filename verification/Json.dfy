/** Decoded JSON values. */
module Json {
  datatype Json =
    | Null
    | Bool(flag: bool)
    | Number(literal: string)
    | Str(text: string)
    | Arr(items: seq<Json>)
    | Obj(fields: map<string, Json>)
}
