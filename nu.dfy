/**
 * The dynamic values a nushell plugin receives (`nu.Value`), as far as the
 * chart commands inspect them.
 */
module Nu {

  /** A calendar instant produced by one of the date parsers; its fields are not inspected. */
  datatype Time = Time(unixNanos: int, offsetSeconds: int)

  /** The payload of a `nu.Value`. */
  datatype Value =
    | VInt(i: int)                          // int64
    | VFloat(f: real)                       // float64
    | VStr(s: string)
    | VRecord(fields: map<string, Value>)   // nu.Record
    | VList(items: seq<Value>)              // []nu.Value
    | VOther                                // bool, date, filesize, binary, closure, ...

  /** The two cases every chart command accepts as a number: `int64` and `float64`. */
  predicate IsNumber(v: Value)
  {
    v.VInt? || v.VFloat?
  }
}
