/**
 The stored form of attribute values: every node of a value is a JSON object
 with a type tag, so that durations and byte strings survive at any depth.
 */
module AttributeCodec {
  import opened Wrappers
  import opened Utf8
  import opened JsonValues
  import JsonDocuments

  datatype Value =
    | Flag(b: bool)
    | Whole(i: Int64)
    | Real(d: Decimal)
    | Text(text: Bytes)
    | Duration(ns: Int64)
    | Blob(bytes: Bytes)
    | List(items: seq<Value>)
    | Map(entries: map<Bytes, Value>)

  const MAX_DEPTH := 64

  // ---------- Hexadecimal text ----------

  function HexDigit(n: int): (c: Byte)
    requires 0 <= n < 16
  {
    if n < 10 then 48 + n else 87 + n
  }

  function HexValue(c: Byte): (n: int)
    ensures -1 <= n < 16
  {
    if 48 <= c <= 57 then c - 48 else if 97 <= c <= 102 then c - 87 else -1
  }

  function Hex(bytes: Bytes): Bytes {
    if bytes == [] then [] else [HexDigit(bytes[0] / 16), HexDigit(bytes[0] % 16)] + Hex(bytes[1..])
  }

  function Unhex(text: Bytes): Option<Bytes> {
    if text == [] then Some([])
    else if |text| == 1 || HexValue(text[0]) < 0 || HexValue(text[1]) < 0 then None
    else After([HexValue(text[0]) * 16 + HexValue(text[1])], Unhex(text[2..]))
  }

  function After(bytes: Bytes, rest: Option<Bytes>): Option<Bytes> {
    if rest.None? then None else Some(bytes + rest.value)
  }

  lemma AfterNothing(bytes: Bytes, rest: Option<Bytes>)
    ensures After([], rest) == rest && After(bytes, Some([])) == Some(bytes)
  {
    assert bytes + [] == bytes;
    assert rest.Some? ==> [] + rest.value == rest.value;
  }

  lemma AfterAfter(a: Bytes, b: Bytes, rest: Option<Bytes>)
    ensures After(a, After(b, rest)) == After(a + b, rest)
  {
    if rest.Some? {
      assert a + b + rest.value == a + (b + rest.value);
    }
  }

  lemma {:induction false} UnhexHex(bytes: Bytes)
    ensures Unhex(Hex(bytes)) == Some(bytes)
  {
    if bytes != [] {
      UnhexHex(bytes[1..]);
      assert Hex(bytes)[2..] == Hex(bytes[1..]);
      assert [bytes[0]] + bytes[1..] == bytes;
    }
  }

  lemma {:induction false} HexUnhex(text: Bytes)
    requires Unhex(text).Some?
    ensures Hex(Unhex(text).value) == text
  {
    if text != [] {
      HexUnhex(text[2..]);
      var bytes := Unhex(text).value;
      assert bytes[1..] == Unhex(text[2..]).value;
      assert text == [text[0], text[1]] + text[2..];
    }
  }

  method BytesToHex(bytes: Bytes) returns (text: Bytes)
    ensures text == Hex(bytes)
  {
    text := [];
    for i := 0 to |bytes|
      invariant text + Hex(bytes[i..]) == Hex(bytes)
    {
      text := text + [HexDigit(bytes[i] / 16), HexDigit(bytes[i] % 16)];
      assert bytes[i..][1..] == bytes[i + 1..];
    }
  }

  method HexToBytes(text: Bytes) returns (r: Option<Bytes>)
    ensures r == Unhex(text)
  {
    if |text| % 2 != 0 {
      OddIsRefused(text);
      return None;
    }
    var bytes: Bytes := [];
    var index := 0;
    assert text[0..] == text;
    AfterNothing([], Unhex(text));
    while index < |text|
      invariant 0 <= index <= |text| && index % 2 == 0
      invariant Unhex(text) == After(bytes, Unhex(text[index..]))
    {
      var high, low := HexValue(text[index]), HexValue(text[index + 1]);
      if high < 0 || low < 0 {
        return None;
      }
      assert text[index..][2..] == text[index + 2..];
      AfterAfter(bytes, [high * 16 + low], Unhex(text[index + 2..]));
      bytes := bytes + [high * 16 + low];
      index := index + 2;
    }
    AfterNothing(bytes, None);
    return Some(bytes);
  }

  lemma {:induction false} OddIsRefused(text: Bytes)
    requires |text| % 2 != 0
    ensures Unhex(text) == None
  {
    if |text| > 1 {
      OddIsRefused(text[2..]);
    }
  }

  // ---------- Tagged nodes ----------

  const TYPE: Bytes := [116, 121, 112, 101]         // "type"
  const VALUE: Bytes := [118, 97, 108, 117, 101]    // "value"

  datatype Tag = BooleanTag | IntegerTag | NumberTag | StringTag | DurationTag | BytesTag | ListTag | MapTag

  function TagText(t: Tag): Bytes {
    match t
    case BooleanTag => [98, 111, 111, 108, 101, 97, 110]
    case IntegerTag => [105, 110, 116, 101, 103, 101, 114]
    case NumberTag => [110, 117, 109, 98, 101, 114]
    case StringTag => [115, 116, 114, 105, 110, 103]
    case DurationTag => [100, 117, 114, 97, 116, 105, 111, 110, 95, 110, 115]
    case BytesTag => [98, 121, 116, 101, 115, 95, 104, 101, 120]
    case ListTag => [108, 105, 115, 116]
    case MapTag => [109, 97, 112]
  }

  function TagOf(text: Bytes): Option<Tag> {
    if text == TagText(BooleanTag) then Some(BooleanTag)
    else if text == TagText(IntegerTag) then Some(IntegerTag)
    else if text == TagText(NumberTag) then Some(NumberTag)
    else if text == TagText(StringTag) then Some(StringTag)
    else if text == TagText(DurationTag) then Some(DurationTag)
    else if text == TagText(BytesTag) then Some(BytesTag)
    else if text == TagText(ListTag) then Some(ListTag)
    else if text == TagText(MapTag) then Some(MapTag)
    else None
  }

  /** The names a node is spelled with. */
  lemma NodeNames()
    ensures TYPE == Octets("type") && VALUE == Octets("value")
    ensures TagText(BooleanTag) == Octets("boolean") && TagText(IntegerTag) == Octets("integer")
    ensures TagText(NumberTag) == Octets("number") && TagText(StringTag) == Octets("string")
    ensures TagText(DurationTag) == Octets("duration_ns") && TagText(BytesTag) == Octets("bytes_hex")
    ensures TagText(ListTag) == Octets("list") && TagText(MapTag) == Octets("map")
  {
  }

  lemma TagsAreDistinct(t: Tag)
    ensures TagOf(TagText(t)) == Some(t)
  {
    assert TagText(BooleanTag)[0] == 98 && TagText(IntegerTag)[0] == 105;
    assert TagText(NumberTag)[0] == 110 && TagText(StringTag)[0] == 115;
  }

  function Node(tag: Tag, payload: Json): Json {
    Object(map[TYPE := String(TagText(tag)), VALUE := payload])
  }

  /** The tag and payload of a node; None for any other shape. */
  function Unnode(j: Json): Option<(Tag, Json)> {
    if !j.Object? || |j.members| != 2 || TYPE !in j.members || VALUE !in j.members then None
    else if !j.members[TYPE].String? then None
    else
      var tag := TagOf(j.members[TYPE].text);
      if tag.None? then None else Some((tag.value, j.members[VALUE]))
  }

  lemma UnnodeNode(tag: Tag, payload: Json)
    ensures Unnode(Node(tag, payload)) == Some((tag, payload))
  {
    TagsAreDistinct(tag);
    assert TYPE != VALUE;
    assert Node(tag, payload).members.Keys == {TYPE, VALUE};
  }

  lemma TwoKeys(m: map<Bytes, Json>)
    requires |m| == 2 && TYPE in m && VALUE in m
    ensures m == map[TYPE := m[TYPE], VALUE := m[VALUE]]
  {
    assert TYPE != VALUE;
    var rest := m.Keys - {TYPE, VALUE};
    assert m.Keys == rest + {TYPE, VALUE};
    assert |rest| == 0;
  }

  lemma NodeUnnode(j: Json)
    requires Unnode(j).Some?
    ensures j == Node(Unnode(j).value.0, Unnode(j).value.1)
  {
    TwoKeys(j.members);
  }

  lemma RereadNode(tag: Tag, payload: Json)
    ensures Reread(Node(tag, payload)) == Node(tag, Reread(payload))
  {
    assert Reread(String(TagText(tag))) == String(TagText(tag));
  }

  // ---------- Encoding ----------

  function Item<T>(r: Option<T>, otherwise: T): T {
    if r.Some? then r.value else otherwise
  }

  /** typed_value_to_json(); None stands for the invalid-value error. */
  ghost function Encode(v: Value, depth: nat): Option<Json>
    decreases v, 1
  {
    var parts := EncodeParts(v, depth);
    if parts.Some? then Some(Node(parts.value.0, parts.value.1)) else None
  }

  ghost function EncodeParts(v: Value, depth: nat): Option<(Tag, Json)>
    decreases v, 0
  {
    match v
    case Flag(b) => Some((BooleanTag, Boolean(b)))
    case Whole(i) => Some((IntegerTag, Integer(i)))
    case Real(d) => if d.Finite? then Some((NumberTag, Number(d))) else None
    case Text(text) => if Encodes(text) then Some((StringTag, String(text))) else None
    case Duration(ns) => Some((DurationTag, Integer(ns)))
    case Blob(bytes) => Some((BytesTag, String(Hex(bytes))))
    case List(items) =>
      if depth >= MAX_DEPTH || exists i :: 0 <= i < |items| && Encode(items[i], depth + 1).None? then None
      else Some((ListTag, Array(seq(|items|, i requires 0 <= i < |items| => Item(Encode(items[i], depth + 1), Null)))))
    case Map(entries) =>
      if depth >= MAX_DEPTH || exists name :: name in entries && BadEntry(v, depth, name) then None
      else Some((MapTag, Object(EncodeEntries(v, depth))))
  }

  ghost predicate BadEntry(v: Value, depth: nat, name: Bytes)
    requires v.Map? && name in v.entries
    decreases v, 0, 0
  {
    !Encodes(name) || Encode(v.entries[name], depth + 1).None?
  }

  ghost function EncodeEntries(v: Value, depth: nat): (members: map<Bytes, Json>)
    requires v.Map?
    ensures members.Keys == v.entries.Keys
    decreases v, 0, 0
  {
    map name | name in v.entries :: Item(Encode(v.entries[name], depth + 1), Null)
  }

  // ---------- Decoding ----------

  function SignedInteger(j: Json): Option<Int64> {
    match j
    case Integer(i) => Some(i)
    case Unsigned(u) => if u < 0x8000_0000_0000_0000 then Some(u) else None
    case _ => None
  }

  /** typed_value_from_json(); None stands for the invalid-document error. */
  ghost function Decode(j: Json, depth: nat): Option<Value>
    decreases j
  {
    var node := Unnode(j);
    if node.None? then None else DecodeParts(node.value.0, j.members[VALUE], depth)
  }

  ghost function DecodeParts(tag: Tag, payload: Json, depth: nat): Option<Value>
    decreases payload
  {
    match tag
    case BooleanTag => if payload.Boolean? then Some(Flag(payload.b)) else None
    case IntegerTag =>
      var i := SignedInteger(payload);
      if i.Some? then Some(Whole(i.value)) else None
    case NumberTag => if payload.Number? && payload.d.Finite? then Some(Real(payload.d)) else None
    case StringTag => if payload.String? && Encodes(payload.text) then Some(Text(payload.text)) else None
    case DurationTag =>
      var ns := SignedInteger(payload);
      if ns.Some? then Some(Duration(ns.value)) else None
    case BytesTag =>
      if !payload.String? then None
      else
        var bytes := Unhex(payload.text);
        if bytes.Some? then Some(Blob(bytes.value)) else None
    case ListTag =>
      if depth >= MAX_DEPTH || !payload.Array?
         || exists i :: 0 <= i < |payload.items| && Decode(payload.items[i], depth + 1).None?
      then None
      else Some(List(seq(|payload.items|,
                         i requires 0 <= i < |payload.items| => Item(Decode(payload.items[i], depth + 1), Flag(false)))))
    case MapTag =>
      if depth >= MAX_DEPTH || !payload.Object?
         || exists name :: name in payload.members && BadMember(payload, depth, name)
      then None
      else Some(Map(DecodeMembers(payload, depth)))
  }

  ghost predicate BadMember(payload: Json, depth: nat, name: Bytes)
    requires payload.Object? && name in payload.members
    decreases payload, 0
  {
    !Encodes(name) || Decode(payload.members[name], depth + 1).None?
  }

  ghost function DecodeMembers(payload: Json, depth: nat): (entries: map<Bytes, Value>)
    requires payload.Object?
    ensures entries.Keys == payload.members.Keys
    decreases payload, 0
  {
    map name | name in payload.members :: Item(Decode(payload.members[name], depth + 1), Flag(false))
  }

  lemma DecodeNode(tag: Tag, payload: Json, depth: nat)
    ensures Decode(Node(tag, payload), depth) == DecodeParts(tag, payload, depth)
    ensures Decode(Reread(Node(tag, payload)), depth) == DecodeParts(tag, Reread(payload), depth)
  {
    UnnodeNode(tag, payload);
    RereadNode(tag, payload);
    UnnodeNode(tag, Reread(payload));
  }

  // ---------- Round trips ----------

  /** Decoding an encoded value returns it, whether or not the JSON was written out and read again in between. */
  lemma {:induction false} DecodeEncode(v: Value, depth: nat)
    requires Encode(v, depth).Some?
    ensures Decode(Encode(v, depth).value, depth) == Some(v)
    ensures Decode(Reread(Encode(v, depth).value), depth) == Some(v)
    decreases v, 2
  {
    var (tag, payload) := EncodeParts(v, depth).value;
    PartsRoundTrip(v, depth);
    DecodeNode(tag, payload, depth);
  }

  ghost predicate PartsReturn(v: Value, depth: nat) {
    EncodeParts(v, depth).Some? ==>
      var parts := EncodeParts(v, depth).value;
      && DecodeParts(parts.0, parts.1, depth) == Some(v)
      && DecodeParts(parts.0, Reread(parts.1), depth) == Some(v)
  }

  lemma {:induction false} PartsRoundTrip(v: Value, depth: nat)
    ensures PartsReturn(v, depth)
    decreases v, 1
  {
    match v {
      case Blob(bytes) => UnhexHex(bytes);
      case List(_) => ListRoundTrip(v, depth);
      case Map(_) => MapRoundTrip(v, depth);
      case _ =>
    }
  }

  lemma {:induction false} ListRoundTrip(v: Value, depth: nat)
    requires v.List?
    ensures PartsReturn(v, depth)
    decreases v, 0
  {
    var parts := EncodeParts(v, depth);
    if parts.Some? {
      var payload := parts.value.1;
      forall i | 0 <= i < |v.items|
        ensures Decode(payload.items[i], depth + 1) == Some(v.items[i])
        ensures Decode(Reread(payload).items[i], depth + 1) == Some(v.items[i])
      {
        DecodeEncode(v.items[i], depth + 1);
      }
      assert DecodeParts(ListTag, payload, depth).value.items == v.items;
      assert DecodeParts(ListTag, Reread(payload), depth).value.items == v.items;
    }
  }

  lemma {:induction false} MapRoundTrip(v: Value, depth: nat)
    requires v.Map?
    ensures PartsReturn(v, depth)
    decreases v, 0
  {
    if EncodeParts(v, depth).Some? {
      var payload := Object(EncodeEntries(v, depth));
      EntriesRoundTrip(v, depth, payload);
      EntriesRoundTrip(v, depth, Reread(payload));
    }
  }

  /** Decoding the members of `payload`, which spells the encoded entries of `v`, returns those entries. */
  lemma {:induction false} EntriesRoundTrip(v: Value, depth: nat, payload: Json)
    requires v.Map? && depth < MAX_DEPTH && payload.Object? && payload.members.Keys == v.entries.Keys
    requires forall name :: name in v.entries ==> !BadEntry(v, depth, name)
    requires payload == Object(EncodeEntries(v, depth)) || payload == Reread(Object(EncodeEntries(v, depth)))
    ensures DecodeParts(MapTag, payload, depth) == Some(v)
    decreases v, 0, 1
  {
    forall name | name in v.entries
      ensures Encodes(name) && Decode(payload.members[name], depth + 1) == Some(v.entries[name])
    {
      EntryRoundTrip(v, depth, payload, name);
    }
    MembersDecode(payload, v.entries, depth);
  }

  lemma {:induction false} EntryRoundTrip(v: Value, depth: nat, payload: Json, name: Bytes)
    requires v.Map? && name in v.entries && !BadEntry(v, depth, name)
    requires payload == Object(EncodeEntries(v, depth)) || payload == Reread(Object(EncodeEntries(v, depth)))
    ensures name in payload.members && Encodes(name)
    ensures Decode(payload.members[name], depth + 1) == Some(v.entries[name])
    decreases v, 0, 0
  {
    DecodeEncode(v.entries[name], depth + 1);
  }

  lemma MembersDecode(payload: Json, entries: map<Bytes, Value>, depth: nat)
    requires payload.Object? && payload.members.Keys == entries.Keys && depth < MAX_DEPTH
    requires forall name :: name in entries ==> Encodes(name)
    requires forall name :: name in entries ==> Decode(payload.members[name], depth + 1) == Some(entries[name])
    ensures DecodeParts(MapTag, payload, depth) == Some(Map(entries))
  {
    assert DecodeMembers(payload, depth) == entries;
    forall name | name in payload.members
      ensures !BadMember(payload, depth, name)
    {
    }
  }

  /** What the decoder accepts is encoded back to the same JSON, up to how non-negative integers are spelled. */
  lemma {:induction false} EncodeDecode(j: Json, depth: nat)
    requires Decode(j, depth).Some?
    ensures Encode(Decode(j, depth).value, depth).Some?
    ensures Reread(Encode(Decode(j, depth).value, depth).value) == Reread(j)
    decreases j
  {
    NodeUnnode(j);
    var (tag, payload) := Unnode(j).value;
    PartsReencode(tag, payload, depth);
    var parts := EncodeParts(Decode(j, depth).value, depth).value;
    RereadNode(tag, payload);
    RereadNode(parts.0, parts.1);
  }

  ghost predicate PartsReencoded(tag: Tag, payload: Json, depth: nat) {
    var v := DecodeParts(tag, payload, depth);
    v.Some? ==>
      var parts := EncodeParts(v.value, depth);
      parts.Some? && parts.value.0 == tag && Reread(parts.value.1) == Reread(payload)
  }

  lemma {:induction false} PartsReencode(tag: Tag, payload: Json, depth: nat)
    ensures PartsReencoded(tag, payload, depth)
    decreases payload, 1
  {
    match tag {
      case BytesTag =>
        if payload.String? && Unhex(payload.text).Some? {
          HexUnhex(payload.text);
        }
      case ListTag =>
        if DecodeParts(tag, payload, depth).Some? {
          forall i | 0 <= i < |payload.items|
            ensures Encode(Decode(payload.items[i], depth + 1).value, depth + 1).Some?
            ensures Reread(Encode(Decode(payload.items[i], depth + 1).value, depth + 1).value) == Reread(payload.items[i])
          {
            EncodeDecode(payload.items[i], depth + 1);
          }
        }
      case MapTag =>
        if DecodeParts(tag, payload, depth).Some? {
          MembersReencode(payload, depth);
        }
      case _ =>
    }
  }

  lemma {:induction false} MembersReencode(payload: Json, depth: nat)
    requires payload.Object? && depth < MAX_DEPTH
    requires forall name :: name in payload.members ==> !BadMember(payload, depth, name)
    ensures PartsReencoded(MapTag, payload, depth)
    decreases payload, 0, 1
  {
    var v := Map(DecodeMembers(payload, depth));
    forall name | name in payload.members
      ensures Encodes(name) && Encode(v.entries[name], depth + 1).Some?
      ensures Reread(Encode(v.entries[name], depth + 1).value) == Reread(payload.members[name])
    {
      assert !BadMember(payload, depth, name);
      EncodeDecode(payload.members[name], depth + 1);
    }
    EntriesEncode(v, payload, depth);
  }

  lemma EntriesEncode(v: Value, payload: Json, depth: nat)
    requires v.Map? && payload.Object? && payload.members.Keys == v.entries.Keys && depth < MAX_DEPTH
    requires forall name :: name in v.entries ==> Encodes(name) && Encode(v.entries[name], depth + 1).Some?
    requires forall name :: name in v.entries ==>
               Reread(Encode(v.entries[name], depth + 1).value) == Reread(payload.members[name])
    ensures EncodeParts(v, depth) == Some((MapTag, Object(EncodeEntries(v, depth))))
    ensures Reread(Object(EncodeEntries(v, depth))) == Reread(payload)
  {
    EntriesGood(v, depth);
    RereadAlike(EncodeEntries(v, depth), payload.members);
  }

  lemma EntriesGood(v: Value, depth: nat)
    requires v.Map? && depth < MAX_DEPTH
    requires forall name :: name in v.entries ==> Encodes(name) && Encode(v.entries[name], depth + 1).Some?
    ensures EncodeParts(v, depth) == Some((MapTag, Object(EncodeEntries(v, depth))))
  {
    forall name | name in v.entries
      ensures !BadEntry(v, depth, name)
    {
    }
  }

  lemma RereadAlike(a: map<Bytes, Json>, b: map<Bytes, Json>)
    requires a.Keys == b.Keys && forall name :: name in a ==> Reread(a[name]) == Reread(b[name])
    ensures Reread(Object(a)) == Reread(Object(b))
  {
    assert Reread(Object(a)).members == Reread(Object(b)).members;
  }

  // ---------- Encoded values as text ----------

  /** At most `k` lists and maps contain each other. */
  ghost predicate Nested(v: Value, k: nat) {
    match v
    case List(items) => k > 0 && forall i :: 0 <= i < |items| ==> Nested(items[i], k - 1)
    case Map(entries) => k > 0 && forall name :: name in entries ==> Nested(entries[name], k - 1)
    case _ => true
  }

  /** The encoded value fits into `n` nested containers: every list and map takes two, and every other value one. */
  ghost predicate Fits(v: Value, n: nat) {
    match v
    case List(items) => n > 1 && forall i :: 0 <= i < |items| ==> Fits(items[i], n - 2)
    case Map(entries) => n > 1 && forall name :: name in entries ==> Fits(entries[name], n - 2)
    case _ => n > 0
  }

  /** Nesting up to `k` fits into 2k + 1 or 2k + 2 containers; what fits into 2k or 2k + 1 is not nested deeper than `k`. */
  lemma {:induction false} FitsByNesting(v: Value, k: nat)
    ensures Nested(v, k) ==> Fits(v, 2 * k + 1) && Fits(v, 2 * k + 2)
    ensures Fits(v, 2 * k) || Fits(v, 2 * k + 1) ==> Nested(v, k)
    decreases v
  {
    match v {
      case List(items) =>
        if k > 0 {
          forall i | 0 <= i < |items|
            ensures Nested(items[i], k - 1) ==> Fits(items[i], 2 * k - 1) && Fits(items[i], 2 * k)
            ensures Fits(items[i], 2 * k - 2) || Fits(items[i], 2 * k - 1) ==> Nested(items[i], k - 1)
          {
            FitsByNesting(items[i], k - 1);
          }
        }
      case Map(entries) =>
        if k > 0 {
          forall name | name in entries
            ensures Nested(entries[name], k - 1) ==> Fits(entries[name], 2 * k - 1) && Fits(entries[name], 2 * k)
            ensures Fits(entries[name], 2 * k - 2) || Fits(entries[name], 2 * k - 1) ==> Nested(entries[name], k - 1)
          {
            FitsByNesting(entries[name], k - 1);
          }
        }
      case _ =>
    }
  }

  lemma {:induction false} HexIsAscii(bytes: Bytes)
    ensures forall i :: 0 <= i < |Hex(bytes)| ==> Hex(bytes)[i] < 0x80
  {
    if bytes != [] {
      HexIsAscii(bytes[1..]);
    }
  }

  lemma TagIsText(tag: Tag)
    ensures Encodes(TagText(tag))
  {
    Ascii(TagText(tag));
  }

  lemma NamesAreText()
    ensures Encodes(TYPE) && Encodes(VALUE)
  {
    Ascii(TYPE);
    Ascii(VALUE);
  }

  lemma NodeIsText(tag: Tag, payload: Json)
    requires JsonDocuments.Serializable(payload)
    ensures JsonDocuments.Serializable(Node(tag, payload))
  {
    TagIsText(tag);
    NamesAreText();
  }

  lemma EntryEncoded(v: Value, depth: nat, name: Bytes)
    requires v.Map? && EncodeParts(v, depth).Some? && name in v.entries
    ensures Encodes(name) && Encode(v.entries[name], depth + 1).Some?
    ensures EncodeParts(v, depth).value.1 == Object(EncodeEntries(v, depth))
    ensures EncodeEntries(v, depth)[name] == Encode(v.entries[name], depth + 1).value
  {
    assert !BadEntry(v, depth, name);
  }

  lemma EntriesEncoded(v: Value, depth: nat)
    requires v.Map? && EncodeParts(v, depth).Some?
    ensures EncodeParts(v, depth).value.1 == Object(EncodeEntries(v, depth))
  {
  }

  /** The serializer takes everything the codec makes. */
  lemma {:induction false} EncodedIsText(v: Value, depth: nat)
    requires Encode(v, depth).Some?
    ensures JsonDocuments.Serializable(Encode(v, depth).value)
    decreases v
  {
    var (tag, payload) := EncodeParts(v, depth).value;
    match v {
      case Blob(bytes) =>
        HexIsAscii(bytes);
        Ascii(Hex(bytes));
      case List(items) =>
        forall i | 0 <= i < |items| ensures JsonDocuments.Serializable(payload.items[i]) {
          EncodedIsText(items[i], depth + 1);
        }
      case Map(entries) =>
        forall name | name in entries
          ensures Encodes(name) && JsonDocuments.Serializable(EncodeEntries(v, depth)[name])
        {
          EntryEncoded(v, depth, name);
          EncodedIsText(entries[name], depth + 1);
        }
      case _ =>
    }
    NodeIsText(tag, payload);
  }

  lemma NodeWithin(tag: Tag, payload: Json, n: nat)
    ensures JsonDocuments.Within(Node(tag, payload), n) <==> n > 0 && JsonDocuments.Within(payload, n - 1)
  {
    var node := Node(tag, payload);
    assert node.members[VALUE] == payload;
  }

  /** How deep the containers of an encoded value go. */
  lemma {:induction false} EncodedWithin(v: Value, depth: nat, n: nat)
    requires Encode(v, depth).Some?
    ensures JsonDocuments.Within(Encode(v, depth).value, n) <==> Fits(v, n)
    decreases v
  {
    var (tag, payload) := EncodeParts(v, depth).value;
    NodeWithin(tag, payload, n);
    if n >= 2 {
      match v {
        case List(items) =>
          forall i | 0 <= i < |items|
            ensures JsonDocuments.Within(payload.items[i], n - 2) <==> Fits(items[i], n - 2)
          {
            EncodedWithin(items[i], depth + 1, n - 2);
          }
        case Map(entries) =>
          forall name | name in entries
            ensures JsonDocuments.Within(EncodeEntries(v, depth)[name], n - 2) <==> Fits(entries[name], n - 2)
          {
            EntryEncoded(v, depth, name);
            EncodedWithin(entries[name], depth + 1, n - 2);
          }
          EntriesEncoded(v, depth);
        case _ =>
      }
    }
  }

  /** `n` lists, one inside the other. */
  function Tower(n: nat): Value {
    if n == 0 then Flag(false) else List([Tower(n - 1)])
  }

  /** The codec encodes towers up to its limit, and a tower takes two containers a list and one for its last value. */
  lemma {:induction false} TowerEncodes(n: nat, depth: nat, containers: nat)
    ensures Encode(Tower(n), depth).Some? <==> n == 0 || depth + n <= MAX_DEPTH
    ensures Fits(Tower(n), containers) <==> 2 * n + 1 <= containers
    decreases n
  {
    if n > 0 {
      TowerEncodes(n - 1, depth + 1, if containers > 1 then containers - 2 else 0);
      assert Tower(n).items[0] == Tower(n - 1);
    }
  }
}
