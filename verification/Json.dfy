/** JSON values as Go decodes them into `any`: objects are maps, and an absent key reads as null. */
module Json {
  datatype Json =
    | Null
    | Bool(b: bool)
    | Int(i: int)
    | Float(r: real)
    | Str(s: string)
    | Arr(items: seq<Json>)
    | Obj(fields: map<string, Json>)
}
