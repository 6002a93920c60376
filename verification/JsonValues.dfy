/** JSON values as the codecs exchange them. */
module JsonValues {
  import opened Utf8

  type Int64 = i: int | -0x8000_0000_0000_0000 <= i < 0x8000_0000_0000_0000

  type UInt64 = u: int | 0 <= u < 0x1_0000_0000_0000_0000

  /** A double: a finite value, or an infinity or not-a-number. */
  datatype Decimal = Finite(value: real) | NotFinite

  datatype Json =
    | Null
    | Boolean(b: bool)
    | Integer(i: Int64)
    | Unsigned(u: UInt64)
    | Number(d: Decimal)
    | String(text: Bytes)
    | Array(items: seq<Json>)
    | Object(members: map<Bytes, Json>)

  /** What a value looks like if it is read back after it was written out: non-negative integers are unsigned then. */
  function Reread(j: Json): Json {
    match j
    case Integer(i) => if i >= 0 then Unsigned(i) else j
    case Array(items) => Array(seq(|items|, i requires 0 <= i < |items| => Reread(items[i])))
    case Object(members) => Object(map name | name in members :: Reread(members[name]))
    case _ => j
  }
}
