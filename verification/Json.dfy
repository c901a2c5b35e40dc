/** JSON values as the parsers build them; objects are key-to-value maps. */
module Json {
  datatype Number = Unsigned(n: nat) | Negative(m: int) | Float(x: real)

  datatype Value =
    | Null
    | Bool(b: bool)
    | Num(number: Number)
    | Str(s: string)
    | Arr(items: seq<Value>)
    | Obj(fields: map<string, Value>)

  type Fields = map<string, Value>
}
