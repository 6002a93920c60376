/** The UTF-8 check shared by the JSON and attribute codecs, against the encoding of Unicode scalar values. */
module Utf8 {
  type Byte = b: int | 0 <= b < 256

  type Bytes = seq<Byte>

  predicate Scalar(c: int) {
    0 <= c < 0xd800 || 0xe000 <= c < 0x11_0000
  }

  /** The encoding of one scalar value (section 3 of RFC 3629). */
  function Encode(c: int): (r: Bytes)
    requires Scalar(c)
    ensures 1 <= |r| <= 4
  {
    if c < 0x80 then [c]
    else if c < 0x800 then [0xc0 + c / 64, 0x80 + c % 64]
    else if c < 0x1_0000 then [0xe0 + c / 64 / 64, 0x80 + c / 64 % 64, 0x80 + c % 64]
    else [0xf0 + c / 64 / 64 / 64, 0x80 + c / 64 / 64 % 64, 0x80 + c / 64 % 64, 0x80 + c % 64]
  }

  datatype Text = Empty | Char(first: int, rest: Text)

  predicate Scalars(t: Text) {
    t.Char? ==> Scalar(t.first) && Scalars(t.rest)
  }

  function EncodeAll(t: Text): Bytes
    requires Scalars(t)
  {
    if t.Empty? then [] else Encode(t.first) + EncodeAll(t.rest)
  }

  /** The bytes encode some text. */
  ghost predicate Encodes(s: Bytes) {
    exists t :: Scalars(t) && EncodeAll(t) == s
  }

  predicate Continuation(b: Byte) {
    0x80 <= b <= 0xbf
  }

  /** The second byte of a three-byte sequence: no overlong forms and no surrogates. */
  predicate SecondOfThree(first: Byte, second: Byte) {
    if first == 0xe0 then 0xa0 <= second <= 0xbf
    else if first == 0xed then 0x80 <= second <= 0x9f
    else Continuation(second)
  }

  /** The second byte of a four-byte sequence: no overlong forms and nothing past the last scalar value. */
  predicate SecondOfFour(first: Byte, second: Byte) {
    if first == 0xf0 then 0x90 <= second <= 0xbf
    else if first == 0xf4 then 0x80 <= second <= 0x8f
    else Continuation(second)
  }

  /** The length of the sequence the check accepts at the front, or 0. */
  function Accepted(s: Bytes): (n: nat)
    requires s != []
    ensures n <= |s| && n <= 4
  {
    var first := s[0];
    if first <= 0x7f then 1
    else if 0xc2 <= first <= 0xdf then
      if |s| >= 2 && Continuation(s[1]) then 2 else 0
    else if 0xe0 <= first <= 0xef then
      if |s| >= 3 && Continuation(s[2]) && SecondOfThree(first, s[1]) then 3 else 0
    else if 0xf0 <= first <= 0xf4 then
      if |s| >= 4 && Continuation(s[2]) && Continuation(s[3]) && SecondOfFour(first, s[1]) then 4 else 0
    else 0
  }

  function Bits(b: Byte, marker: int): int {
    b as int - marker
  }

  /** The scalar value a sequence of the accepted length stands for. */
  function Value(s: Bytes): int {
    if |s| == 1 then s[0]
    else if |s| == 2 then Bits(s[0], 0xc0) * 64 + Bits(s[1], 0x80)
    else if |s| == 3 then (Bits(s[0], 0xe0) * 64 + Bits(s[1], 0x80)) * 64 + Bits(s[2], 0x80)
    else if |s| == 4 then ((Bits(s[0], 0xf0) * 64 + Bits(s[1], 0x80)) * 64 + Bits(s[2], 0x80)) * 64 + Bits(s[3], 0x80)
    else 0
  }

  /** Six bits at the bottom of a number. */
  lemma Digit(high: int, low: int)
    requires 0 <= low < 64
    ensures (high * 64 + low) / 64 == high && (high * 64 + low) % 64 == low
  {
  }

  lemma EncodeThree(a: int, b: int, c: int)
    requires 0 <= a < 16 && 0 <= b < 64 && 0 <= c < 64 && SecondOfThree(0xe0 + a, 0x80 + b)
    ensures Scalar((a * 64 + b) * 64 + c)
    ensures Encode((a * 64 + b) * 64 + c) == [0xe0 + a, 0x80 + b, 0x80 + c]
  {
    Digit(a, b);
    Digit(a * 64 + b, c);
  }

  lemma EncodeFour(a: int, b: int, c: int, d: int)
    requires 0 <= a <= 4 && 0 <= b < 64 && 0 <= c < 64 && 0 <= d < 64 && SecondOfFour(0xf0 + a, 0x80 + b)
    ensures Scalar(((a * 64 + b) * 64 + c) * 64 + d)
    ensures Encode(((a * 64 + b) * 64 + c) * 64 + d) == [0xf0 + a, 0x80 + b, 0x80 + c, 0x80 + d]
  {
    Digit(a, b);
    Digit(a * 64 + b, c);
    Digit((a * 64 + b) * 64 + c, d);
  }

  /** What the check accepts is the encoding of a scalar value. */
  lemma AcceptedEncodes(s: Bytes)
    requires s != [] && Accepted(s) > 0
    ensures Scalar(Value(s[..Accepted(s)])) && Encode(Value(s[..Accepted(s)])) == s[..Accepted(s)]
  {
    var t := s[..Accepted(s)];
    if |t| == 2 {
      Digit(Bits(t[0], 0xc0), Bits(t[1], 0x80));
    } else if |t| == 3 {
      EncodeThree(Bits(t[0], 0xe0), Bits(t[1], 0x80), Bits(t[2], 0x80));
    } else if |t| == 4 {
      EncodeFour(Bits(t[0], 0xf0), Bits(t[1], 0x80), Bits(t[2], 0x80), Bits(t[3], 0x80));
    }
  }

  /** The check accepts exactly the encoding of a scalar value at the front. */
  lemma EncodedAccepted(s: Bytes, c: int)
    requires Scalar(c) && Encode(c) <= s
    ensures s != [] && Accepted(s) == |Encode(c)|
  {
    var e := Encode(c);
    assert forall i :: 0 <= i < |e| ==> s[i] == e[i];
    Leads(c);
  }

  /** The ranges of the first two bytes of an encoding. */
  lemma Leads(c: int)
    requires Scalar(c)
    ensures c < 0x80 ==> Encode(c)[0] < 0x80
    ensures 0x80 <= c < 0x800 ==> 0xc2 <= Encode(c)[0] <= 0xdf
    ensures 0x800 <= c < 0x1_0000 ==> 0xe0 <= Encode(c)[0] <= 0xef && SecondOfThree(Encode(c)[0], Encode(c)[1])
    ensures 0x1_0000 <= c ==> 0xf0 <= Encode(c)[0] <= 0xf4 && SecondOfFour(Encode(c)[0], Encode(c)[1])
  {
    if 0x800 <= c < 0x1_0000 {
      LeadsOfThree(c / 64);
    } else if 0x1_0000 <= c {
      LeadsOfFour(c / 64 / 64);
    }
  }

  lemma LeadsOfThree(q: int)
    requires 0x20 <= q < 0x400 && !(0x360 <= q < 0x380)
    ensures 0 <= q / 64 < 16 && SecondOfThree(0xe0 + q / 64, 0x80 + q % 64)
  {
  }

  lemma LeadsOfFour(q: int)
    requires 0x10 <= q < 0x110
    ensures 0 <= q / 64 <= 4 && SecondOfFour(0xf0 + q / 64, 0x80 + q % 64)
  {
  }

  lemma EncodesStep(s: Bytes)
    requires s != []
    ensures Encodes(s) <==> Accepted(s) > 0 && Encodes(s[Accepted(s)..])
  {
    var n := Accepted(s);
    if Encodes(s) {
      var t :| Scalars(t) && EncodeAll(t) == s;
      EncodedAccepted(s, t.first);
      assert s[n..] == EncodeAll(t.rest);
    }
    if n > 0 && Encodes(s[n..]) {
      AcceptedEncodes(s);
      var t :| Scalars(t) && EncodeAll(t) == s[n..];
      var whole := Char(Value(s[..n]), t);
      assert EncodeAll(whole) == s[..n] + s[n..] == s;
    }
  }

  /** is_valid_utf8(): true exactly for the encodings of texts. */
  method IsValidUtf8(s: Bytes) returns (ok: bool)
    ensures ok <==> Encodes(s)
  {
    var index := 0;
    assert s[0..] == s;
    while index < |s|
      invariant 0 <= index <= |s|
      invariant Encodes(s) <==> Encodes(s[index..])
    {
      EncodesStep(s[index..]);
      var n := Accepted(s[index..]);
      if n == 0 {
        return false;
      }
      assert s[index..][n..] == s[index + n..];
      index := index + n;
    }
    assert EncodeAll(Empty) == s[index..];
    return true;
  }

  /** Plain ASCII is valid. */
  lemma {:induction false} Ascii(s: Bytes)
    requires forall i :: 0 <= i < |s| ==> s[i] < 0x80
    ensures Encodes(s)
  {
    if s == [] {
      assert EncodeAll(Empty) == s;
    } else {
      Ascii(s[1..]);
      EncodesStep(s);
    }
  }

  /** The bytes of a text of plain characters. */
  function Octets(s: string): Bytes
    requires forall i :: 0 <= i < |s| ==> s[i] < 128 as char
  {
    seq(|s|, i requires 0 <= i < |s| => s[i] as int)
  }
}
