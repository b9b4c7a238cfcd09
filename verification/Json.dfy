/** JSON values and the accessors the gateway reads them with. */
module Json {
  import opened Common

  datatype Json =
    | Null
    | Bool(b: bool)
    | Int(i: int)
    | Float(r: real)
    | Str(s: string)
    | Arr(items: seq<Json>)
    | Obj(fields: map<string, Json>)

  function Get(v: Json, key: string): Option<Json> {
    if v.Obj? && key in v.fields then Some(v.fields[key]) else None
  }

  function AsStr(v: Option<Json>): Option<string> {
    if v.Some? && v.value.Str? then Some(v.value.s) else None
  }

  function GetStr(v: Json, key: string): Option<string> { AsStr(Get(v, key)) }

  predicate IsNumber(v: Json) { v.Int? || v.Float? }

  const U64_LIMIT: int := 0x1_0000_0000_0000_0000
  const I64_LIMIT: int := 0x8000_0000_0000_0000

  type U64 = x: int | 0 <= x < U64_LIMIT

  predicate IsU64(v: Json) { v.Int? && 0 <= v.i < U64_LIMIT }

  predicate IsI64(v: Json) { v.Int? && -I64_LIMIT <= v.i < I64_LIMIT }

  /** JSON text: the parser and the printer of the JSON library, about which nothing is assumed. */
  datatype Codec = Codec(decode: string -> Option<Json>, encode: Json -> string)
}
