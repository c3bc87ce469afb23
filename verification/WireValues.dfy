/** The Python values that cross the Bridge channel. */
module WireValues {
  import opened Bytes

  datatype Value =
    | Nil
    | Bool(flag: bool)
    | Int(number: int)
    | Real(quantity: real)
    | Str(text: string)
    | ByteString(data: bytes)
    | List(items: seq<Value>)
    | Tuple(elements: seq<Value>)
    | Dict(entries: seq<Entry>)
    | Unsupported

  /** `name` is what str() prints for the key; `textual` says the key is a string. */
  datatype Entry = Entry(name: string, textual: bool, value: Value)

  /** v == n for a number; Python compares ints and floats by value. */
  predicate EqualsNumber(v: Value, n: int) {
    v == Int(n) || v == Real(n as real)
  }
}
