/** Decoded JSON as `map[string]any` trees: `null` and a missing key both read as `Null`. */
module Json {

  datatype Json =
    | Null
    | Bool(flag: bool)
    | Num(number: real)
    | Str(text: string)
    | Arr(items: seq<Json>)
    | Obj(fields: Object)

  type Object = map<string, Json>

  /** `m[key]`: the zero value when the key is missing. */
  function Get(o: Object, key: string): Json {
    if key in o then o[key] else Null
  }

  /** `v, _ := value.(string)` */
  function TextOr(v: Json): string {
    if v.Str? then v.text else ""
  }

  /** `v, _ := value.([]any)` */
  function ItemsOr(v: Json): seq<Json> {
    if v.Arr? then v.items else []
  }

  /** `v, _ := value.(map[string]any)` */
  function FieldsOr(v: Json): Object {
    if v.Obj? then v.fields else map[]
  }

  /** `int(n)` for a float: truncation toward zero into 64 bits.  Go leaves a result out of range to
      the machine; this is what amd64 gives. */
  function Truncate(n: real): (whole: int)
    ensures 0.0 <= n < 9223372036854775808.0 ==> whole as real <= n < whole as real + 1.0
    ensures -9223372036854775808.0 <= n <= 0.0 ==> whole as real - 1.0 < n <= whole as real
    ensures !(-9223372036854775809.0 < n < 9223372036854775808.0) ==> whole == -9223372036854775808
  {
    var whole := if n >= 0.0 then n.Floor else -((-n).Floor);
    if -0x8000_0000_0000_0000 <= whole < 0x8000_0000_0000_0000 then whole else -0x8000_0000_0000_0000
  }
}
