/**
 JSON values, and the readings of them that the Go code gets from `json.Unmarshal`.

 JSON text itself is library code: a `Codec` stands for the library's parser and
 printer. Whatever is proved about decoding holds for every parser; only the
 round trips over the wire ask for `Sound`.
 */
module Json {
  import opened Wrappers

  datatype Value =
    | JNull
    | JBool(b: bool)
    | JInt(n: int)
    | JDecimal(mantissa: int, exponent: int)
    | JStr(s: string)
    | JArr(items: seq<Value>)
    | JObj(fields: map<string, Value>)

  type Object = map<string, Value>

  function Field(obj: Object, key: string): Option<Value> {
    if key in obj then Some(obj[key]) else None
  }

  /** Unmarshalling into a map: null gives the empty map, anything but an object fails. */
  function AsObject(v: Option<Value>): Option<Object> {
    match v
    case Some(JObj(fields)) => Some(fields)
    case Some(JNull) => Some(map[])
    case _ => None
  }

  /** Unmarshalling into a string, with "" for whatever is not one. */
  function AsString(v: Option<Value>): string {
    match v
    case Some(JStr(s)) => s
    case _ => ""
  }

  const MIN_INT64 := -0x8000_0000_0000_0000
  const MAX_INT64 := 0x7FFF_FFFF_FFFF_FFFF

  /** Unmarshalling into an int: a fraction or an integer beyond 64 bits fails and reads as 0. */
  function AsInt(v: Option<Value>): int {
    match v
    case Some(JInt(n)) => if MIN_INT64 <= n <= MAX_INT64 then n else 0
    case _ => 0
  }

  datatype Codec = Codec(parse: string -> Option<Value>, print_: Value -> string)
  {
    /** The printer is read back by the parser, writes no raw line end, and never writes nothing. */
    ghost predicate Sound() {
      && (forall v :: SoundAt(v))
      && parse("[DONE]") == None
    }

    ghost predicate SoundAt(v: Value) {
      && parse(print_(v)) == Some(v)
      && print_(v) != "" && '\n' !in print_(v) && '\r' !in print_(v)
    }
  }
}
