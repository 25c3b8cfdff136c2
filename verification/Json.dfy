/** JSON values as Go's encoding/json decodes them into `any`; `Null` is also the nil interface. */
module Json {
  datatype Json =
    | Null
    | Bool(b: bool)
    | Num(text: string)
    | Str(s: string)
    | Arr(items: seq<Json>)
    | Obj(fields: map<string, Json>)
}
