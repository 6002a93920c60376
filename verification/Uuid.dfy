/**
 UUID version 7 generation (sections 5.7 and 6.2 of RFC 9562): a millisecond
 timestamp and a 74-bit tail that is counted up while the clock stands still
 or runs backwards. And the canonical text form.
 */
module Uuid {
  import opened Wrappers
  import opened Utf8

  // ---------- Big-endian values ----------

  /** The number written in bytes lo..hi. */
  function Number(s: Bytes, lo: nat, hi: nat): nat
    requires lo <= hi <= |s|
    decreases hi
  {
    if hi == lo then 0 else Number(s, lo, hi - 1) * 256 + s[hi - 1]
  }

  lemma {:induction false} SameNumber(a: Bytes, b: Bytes, lo: nat, hi: nat)
    requires lo <= hi <= |a| && hi <= |b| && forall k :: lo <= k < hi ==> a[k] == b[k]
    ensures Number(a, lo, hi) == Number(b, lo, hi)
    decreases hi
  {
    if lo < hi {
      SameNumber(a, b, lo, hi - 1);
    }
  }

  /** Adding one below a run of full bytes: they become zero and carry into byte `j`. */
  lemma {:induction false} Carried(a: Bytes, b: Bytes, lo: nat, j: nat, hi: nat)
    requires lo <= j < hi <= |a| && hi <= |b| && b[j] as int == a[j] as int + 1
    requires forall k :: lo <= k < j ==> a[k] == b[k]
    requires forall k :: j < k < hi ==> a[k] == 255 && b[k] == 0
    ensures Number(b, lo, hi) == Number(a, lo, hi) + 1
    decreases hi
  {
    if hi == j + 1 {
      SameNumber(a, b, lo, j);
    } else {
      Carried(a, b, lo, j, hi - 1);
    }
  }

  function Power(n: nat): nat {
    if n == 0 then 1 else Power(n - 1) * 256
  }

  lemma {:induction false} Full(a: Bytes, lo: nat, hi: nat)
    requires lo <= hi <= |a| && forall k :: lo <= k < hi ==> a[k] == 255
    ensures Number(a, lo, hi) + 1 == Power(hi - lo)
    decreases hi
  {
    if lo < hi {
      Full(a, lo, hi - 1);
    }
  }

  lemma {:induction false} Zero(a: Bytes, lo: nat, hi: nat)
    requires lo <= hi <= |a| && forall k :: lo <= k < hi ==> a[k] == 0
    ensures Number(a, lo, hi) == 0
    decreases hi
  {
    if lo < hi {
      Zero(a, lo, hi - 1);
    }
  }

  // ---------- Byte order ----------

  ghost predicate Before(a: Bytes, b: Bytes) {
    exists k :: DiffersAt(a, b, k)
  }

  predicate DiffersAt(a: Bytes, b: Bytes, k: nat) {
    k < |a| && k < |b| && a[k] < b[k] && forall i :: 0 <= i < k ==> a[i] == b[i]
  }

  lemma BeforeTrans(a: Bytes, b: Bytes, c: Bytes)
    requires Before(a, b) && Before(b, c)
    ensures Before(a, c)
  {
    var k: nat :| DiffersAt(a, b, k);
    var l: nat :| DiffersAt(b, c, l);
    assert DiffersAt(a, c, if k < l then k else l);
  }

  /** A smaller leading number means earlier in byte order. */
  lemma {:induction false} NumberOrder(a: Bytes, b: Bytes, n: nat)
    requires n <= |a| && n <= |b|
    ensures Number(a, 0, n) == Number(b, 0, n) ==> forall i :: 0 <= i < n ==> a[i] == b[i]
    ensures Number(a, 0, n) < Number(b, 0, n) ==> Before(a, b)
    decreases n
  {
    if n > 0 {
      NumberOrder(a, b, n - 1);
      var x, y := Number(a, 0, n - 1), Number(b, 0, n - 1);
      if x == y && a[n - 1] < b[n - 1] {
        assert DiffersAt(a, b, n - 1);
      }
    }
  }

  // ---------- The shape of a version 7 UUID ----------

  const SIZE := 16
  const MAX_TIMESTAMP := 0xffff_ffff_ffff

  predicate Shaped(u: Bytes) {
    |u| == SIZE && 0x70 <= u[6] < 0x80 && 0x80 <= u[8] < 0xc0
  }

  function Timestamp(u: Bytes): nat
    requires Shaped(u)
  {
    Number(u, 0, 6)
  }

  /** The upper 18 bits of the tail: 4 of byte 6, all of byte 7 and 6 of byte 8. */
  function High(u: Bytes): (h: nat)
    requires Shaped(u)
    ensures h <= LAST_HIGH
  {
    ((u[6] as int - 0x70) * 256 + u[7]) * 64 + (u[8] as int - 0x80)
  }

  const LAST_HIGH := 0x3_ffff

  /** One more than the largest number the bytes from 9 on can hold. */
  function LowLimit(u: Bytes): nat
    requires Shaped(u)
  {
    Power(|u| - 9)
  }

  function Low(u: Bytes): nat
    requires Shaped(u)
  {
    Number(u, 9, |u|)
  }

  /** The 74 random or counted bits: the upper 18 and bytes 9 to 15. */
  function TailNumber(u: Bytes): int
    requires Shaped(u)
  {
    Tail(High(u), Low(u), LowLimit(u))
  }

  function Tail(high: nat, low: int, limit: nat): int {
    Times(high, limit) + low
  }

  function Times(a: nat, b: nat): nat {
    if a == 0 then 0 else Times(a - 1, b) + b
  }

  lemma {:induction false} TimesIsProduct(a: nat, b: nat)
    ensures Times(a, b) == a * b
  {
    if a > 0 {
      TimesIsProduct(a - 1, b);
      assert (a - 1) * b == a * b - b;
    }
  }

  /** Every bit of the tail is set. */
  predicate Exhausted(u: Bytes)
    requires Shaped(u)
  {
    TailNumber(u) == Tail(LAST_HIGH, LowLimit(u) - 1, LowLimit(u))
  }

  ghost predicate SameHead(a: Bytes, b: Bytes) {
    |a| == |b| == SIZE && forall i :: 0 <= i < 6 ==> a[i] == b[i]
  }

  lemma {:induction false} NumberBound(s: Bytes, lo: nat, hi: nat)
    requires lo <= hi <= |s|
    ensures Number(s, lo, hi) < Power(hi - lo)
    decreases hi
  {
    if lo < hi {
      NumberBound(s, lo, hi - 1);
    }
  }

  lemma {:induction false} TimesGrows(a: nat, c: nat, b: nat)
    requires a < c
    ensures Times(a, b) + b <= Times(c, b)
    decreases c
  {
    if a < c - 1 {
      TimesGrows(a, c - 1, b);
    }
  }

  lemma ExhaustedMeans(u: Bytes)
    requires Shaped(u)
    ensures Exhausted(u) <==> High(u) == LAST_HIGH && Low(u) == LowLimit(u) - 1
  {
    NumberBound(u, 9, |u|);
    if High(u) < LAST_HIGH {
      TimesGrows(High(u), LAST_HIGH, LowLimit(u));
    }
  }

  lemma LowStep(a: Bytes, b: Bytes)
    requires Shaped(a) && Shaped(b) && High(a) == High(b) && Low(b) == Low(a) + 1
    ensures TailNumber(b) == TailNumber(a) + 1 && !Exhausted(a)
  {
    NumberBound(b, 9, |b|);
    ExhaustedMeans(a);
  }

  lemma HighStep(a: Bytes, b: Bytes)
    requires Shaped(a) && Shaped(b) && Low(a) + 1 == LowLimit(a) && Low(b) == 0 && High(b) == High(a) + 1
    ensures TailNumber(b) == TailNumber(a) + 1 && !Exhausted(a)
  {
    ExhaustedMeans(a);
  }

  /** The byte loop of increment_random_tail(): the byte that took the carry, or 8 when none of the low ones could. */
  method CarryLow(bytes: array<Byte>) returns (j: nat)
    requires bytes.Length == SIZE
    modifies bytes
    ensures 8 <= j < SIZE
    ensures forall i :: 0 <= i < SIZE && (i < j || i == 8) ==> bytes[i] == old(bytes[i])
    ensures j > 8 ==> bytes[j] as int == old(bytes[j]) as int + 1
    ensures forall i :: j < i < SIZE ==> bytes[i] == 0 && old(bytes[i]) == 255
  {
    var index := SIZE;
    while index > 9
      invariant 9 <= index <= SIZE
      invariant forall i :: 0 <= i < index ==> bytes[i] == old(bytes[i])
      invariant forall i :: index <= i < SIZE ==> bytes[i] == 0 && old(bytes[i]) == 255
    {
      index := index - 1;
      if bytes[index] != 255 {
        bytes[index] := bytes[index] + 1;
        return index;
      }
      bytes[index] := 0;
    }
    return 8;
  }

  /** Adds one to bytes 9 to 15, or clears them and carries out. */
  method IncrementLow(bytes: array<Byte>) returns (done: bool)
    requires bytes.Length == SIZE && Shaped(bytes[..])
    modifies bytes
    ensures Shaped(bytes[..]) && forall i :: 0 <= i < 9 ==> bytes[i] == old(bytes[i])
    ensures done ==> Low(bytes[..]) == Low(old(bytes[..])) + 1 && Before(old(bytes[..]), bytes[..])
    ensures !done ==> Low(bytes[..]) == 0 && Low(old(bytes[..])) + 1 == LowLimit(bytes[..])
  {
    ghost var before := bytes[..];
    var j := CarryLow(bytes);
    ghost var after := bytes[..];
    done := j > 8;
    if done {
      Carried(before, after, 9, j, |before|);
      assert DiffersAt(before, after, j);
    } else {
      Full(before, 9, |before|);
      Zero(after, 9, |before|);
    }
  }

  /** The rest of increment_random_tail(): the carry goes into bytes 8, 7 and 6, around the version and variant bits. */
  method IncrementHigh(bytes: array<Byte>) returns (ok: bool)
    requires bytes.Length == SIZE && Shaped(bytes[..])
    modifies bytes
    ensures Shaped(bytes[..]) && SameHead(old(bytes[..]), bytes[..])
    ensures forall i :: 9 <= i < SIZE ==> bytes[i] == old(bytes[i])
    ensures ok ==> High(bytes[..]) == High(old(bytes[..])) + 1
    ensures ok ==> exists j: nat :: j < 9 && bytes[j] > old(bytes[j]) && forall i :: 0 <= i < j ==> bytes[i] == old(bytes[i])
    ensures !ok <==> High(old(bytes[..])) == LAST_HIGH
  {
    if bytes[8] != 0xbf {
      bytes[8] := bytes[8] + 1;
      return true;
    }
    bytes[8] := 0x80;
    if bytes[7] != 255 {
      bytes[7] := bytes[7] + 1;
      return true;
    }
    bytes[7] := 0;
    if bytes[6] != 0x7f {
      bytes[6] := bytes[6] + 1;
      return true;
    }
    bytes[6] := 0x70;
    return false;
  }

  /** increment_random_tail(): adds exactly one to the tail, or reports that it was at its largest. */
  method IncrementRandomTail(bytes: array<Byte>) returns (ok: bool)
    requires bytes.Length == SIZE && Shaped(bytes[..])
    modifies bytes
    ensures Shaped(bytes[..]) && SameHead(old(bytes[..]), bytes[..])
    ensures ok ==> TailNumber(bytes[..]) == TailNumber(old(bytes[..])) + 1 && Before(old(bytes[..]), bytes[..])
    ensures !ok <==> Exhausted(old(bytes[..]))
  {
    ghost var before := bytes[..];
    ok := IncrementLow(bytes);
    if ok {
      LowStep(before, bytes[..]);
      return;
    }
    ghost var middle := bytes[..];
    ok := IncrementHigh(bytes);
    SameNumber(middle, bytes[..], 9, |middle|);
    if ok {
      HighStep(before, bytes[..]);
      ghost var j: nat :| j < 9 && bytes[j] > middle[j] && forall i :: 0 <= i < j ==> bytes[i] == middle[i];
      assert DiffersAt(before, bytes[..], j);
    } else {
      ExhaustedMeans(before);
    }
  }

  // ---------- The timestamp ----------

  /** The value shifted right by `n` bytes. */
  function Shifted(value: nat, n: nat): nat {
    if n == 0 then value else Shifted(value, n - 1) / 256
  }

  lemma {:induction false} ShiftedOut(value: nat, n: nat)
    requires value < Power(n)
    ensures Shifted(value, n) == 0
    decreases n
  {
    ShiftedBound(value, n, n);
  }

  lemma {:induction false} ShiftedBound(value: nat, n: nat, k: nat)
    requires k <= n && value < Power(n)
    ensures Shifted(value, k) < Power(n - k)
    decreases k
  {
    if k > 0 {
      ShiftedBound(value, n, k - 1);
    }
  }

  /** set_timestamp(): the first bytes become the big-endian value. */
  method SetTimestamp(bytes: array<Byte>, value: nat, count: nat)
    requires count <= bytes.Length && value < Power(count)
    modifies bytes
    ensures Number(bytes[..], 0, count) == value
    ensures forall i :: count <= i < bytes.Length ==> bytes[i] == old(bytes[i])
  {
    ShiftedOut(value, count);
    var index := 0;
    while index < count
      invariant 0 <= index <= count
      invariant Number(bytes[..], 0, index) == Shifted(value, count - index)
      invariant forall i :: count <= i < bytes.Length ==> bytes[i] == old(bytes[i])
    {
      ghost var before := bytes[..];
      bytes[index] := Shifted(value, count - 1 - index) % 256;
      SameNumber(before, bytes[..], 0, index);
      index := index + 1;
    }
  }

  lemma SixBytes()
    ensures Power(6) == MAX_TIMESTAMP + 1
  {
  }

  // ---------- The generator ----------

  /** Every bit of the tail is the drawn one. */
  predicate Drawn(u: Bytes, random: Bytes) {
    && |u| == |random| == SIZE
    && u[6] % 16 == random[6] % 16 && u[7] == random[7] && u[8] % 64 == random[8] % 64
    && forall i :: 9 <= i < SIZE ==> u[i] == random[i]
  }

  datatype UuidError = TimestampOutOfRange | RandomUnavailable | SequenceExhausted

  class Generator {
    var hasLast: bool
    var last: Bytes
    var lastMs: nat

    ghost predicate Valid()
      reads this
    {
      hasLast ==> Shaped(last) && Timestamp(last) == lastMs
    }

    constructor ()
      ensures Valid() && !hasLast
    {
      hasLast, last, lastMs := false, [], 0;
    }

    /** A UUID of a new millisecond, from fresh random bytes. */
    method Fresh(ms: nat, random: Bytes) returns (next: Bytes)
      requires ms <= MAX_TIMESTAMP && |random| == SIZE
      ensures Shaped(next) && Timestamp(next) == ms && Drawn(next, random)
    {
      SixBytes();
      var bytes := new Byte[SIZE](i requires 0 <= i < SIZE => random[i]);
      SetTimestamp(bytes, ms, 6);
      ghost var stamped := bytes[..];
      bytes[6] := bytes[6] % 16 + 0x70;
      bytes[8] := bytes[8] % 64 + 0x80;
      next := bytes[..];
      SameNumber(stamped, next, 0, 6);
    }

    method Successor() returns (next: Option<Bytes>)
      requires Valid() && hasLast
      ensures next.Some? <==> !Exhausted(last)
      ensures next.Some? ==>
                && Shaped(next.value) && Timestamp(next.value) == lastMs
                && TailNumber(next.value) == TailNumber(last) + 1 && Before(last, next.value)
    {
      var current := last;
      var bytes := new Byte[SIZE](i requires 0 <= i < SIZE => current[i]);
      assert bytes[..] == last;
      var ok := IncrementRandomTail(bytes);
      SameNumber(last, bytes[..], 0, 6);
      return if ok then Some(bytes[..]) else None;
    }

    /**
     generate(): a later millisecond draws a fresh tail; the same or an earlier
     one counts the tail up. A failure changes nothing.
     */
    method Generate(now: int, random: Option<Bytes>) returns (r: Result<Bytes, UuidError>)
      requires Valid() && (random.Some? ==> |random.value| == SIZE)
      modifies this
      ensures Valid()
      ensures r.Ok? ==> Shaped(r.value) && hasLast && last == r.value && (old(hasLast) ==> Before(old(last), r.value))
      ensures r.Ok? && (!old(hasLast) || now > old(lastMs)) ==>
                Timestamp(r.value) == now && random.Some? && Drawn(r.value, random.value)
      ensures r.Ok? && old(hasLast) && now <= old(lastMs) ==>
                Timestamp(r.value) == old(lastMs) && TailNumber(r.value) == TailNumber(old(last)) + 1
      ensures r.Err? ==> hasLast == old(hasLast) && last == old(last) && lastMs == old(lastMs)
      ensures r == Err(TimestampOutOfRange) <==> now < 0 || now > MAX_TIMESTAMP
      ensures r == Err(SequenceExhausted) <==>
                0 <= now <= MAX_TIMESTAMP && old(hasLast) && now <= old(lastMs) && Exhausted(old(last))
      ensures r == Err(RandomUnavailable) <==>
                0 <= now <= MAX_TIMESTAMP && (!old(hasLast) || now > old(lastMs)) && random.None?
    {
      if now < 0 || now > MAX_TIMESTAMP {
        return Err(TimestampOutOfRange);
      }
      if !hasLast || now > lastMs {
        if random.None? {
          return Err(RandomUnavailable);
        }
        var next := Fresh(now, random.value);
        if hasLast {
          NumberOrder(last, next, 6);
        }
        last, lastMs, hasLast := next, now, true;
        return Ok(next);
      }
      var next := Successor();
      if next.None? {
        return Err(SequenceExhausted);
      }
      last := next.value;
      return Ok(next.value);
    }
  }

  /** The generated UUIDs, newest last. */
  datatype Issued = Nothing | Issue(earlier: Issued, id: Bytes)

  /** Every UUID is after the one issued before it. */
  ghost predicate Increasing(ids: Issued) {
    ids.Issue? ==>
      Shaped(ids.id) && Increasing(ids.earlier) && (ids.earlier.Issue? ==> Before(ids.earlier.id, ids.id))
  }

  predicate Includes(ids: Issued, id: Bytes) {
    ids.Issue? && (ids.id == id || Includes(ids.earlier, id))
  }

  /** So every UUID is after all the ones issued before it, and none is issued twice. */
  lemma {:induction false} AfterAll(ids: Issued, id: Bytes)
    requires ids.Issue? && Increasing(ids) && Includes(ids.earlier, id)
    ensures Before(id, ids.id)
    decreases ids
  {
    if ids.earlier.id != id {
      AfterAll(ids.earlier, id);
      BeforeTrans(id, ids.earlier.id, ids.id);
    }
  }

  /** Any clock, forwards or backwards: the generated UUIDs are strictly increasing. */
  method GenerateAll(calls: seq<(int, Option<Bytes>)>) returns (ids: Issued)
    requires forall i :: 0 <= i < |calls| && calls[i].1.Some? ==> |calls[i].1.value| == SIZE
    ensures Increasing(ids)
  {
    var generator := new Generator();
    ids := Nothing;
    for k := 0 to |calls|
      invariant generator.Valid() && (generator.hasLast <==> ids.Issue?)
      invariant ids.Issue? ==> generator.last == ids.id
      invariant Increasing(ids)
    {
      var r := generator.Generate(calls[k].0, calls[k].1);
      if r.Ok? {
        ids := Issue(ids, r.value);
      }
    }
  }

  // ---------- Canonical text ----------

  const DASH: Byte := 45

  function HexDigit(n: nat): Byte
    requires n < 16
  {
    if n < 10 then 48 + n else 87 + n
  }

  function HexValue(c: Byte): int {
    if 48 <= c <= 57 then c as int - 48
    else if 97 <= c <= 102 then c as int - 87
    else if 65 <= c <= 70 then c as int - 55
    else -1
  }

  const LOWER: string := "0123456789abcdef"
  const UPPER: string := "0123456789ABCDEF"

  /** Digits are written in lower case and read in either, and nothing else is a digit. */
  lemma HexExactly(n: nat, c: Byte)
    requires n < 16
    ensures HexDigit(n) == LOWER[n] as int && HexValue(LOWER[n] as int) == n && HexValue(UPPER[n] as int) == n
    ensures HexValue(c) >= 0 ==> exists k :: 0 <= k < 16 && (c == LOWER[k] as int || c == UPPER[k] as int)
  {
    if HexValue(c) >= 0 {
      var k := HexValue(c);
      assert c == LOWER[k] as int || c == UPPER[k] as int;
    }
  }

  /** Where the two digits of byte `i` stand. */
  function Place(i: nat): nat {
    2 * i + (if i >= 10 then 4 else if i >= 8 then 3 else if i >= 6 then 2 else if i >= 4 then 1 else 0)
  }

  predicate Dashed(t: Bytes) {
    |t| == 36 && t[8] == DASH && t[13] == DASH && t[18] == DASH && t[23] == DASH
  }

  predicate Spells(t: Bytes, u: Bytes, i: nat)
    requires |t| == 36 && |u| == SIZE && i < SIZE
  {
    t[Place(i)] == HexDigit(u[i] / 16) && t[Place(i) + 1] == HexDigit(u[i] % 16)
  }

  /** The canonical spelling of a UUID. */
  predicate Canonical(t: Bytes, u: Bytes) {
    |u| == SIZE && Dashed(t) && forall i :: 0 <= i < SIZE ==> Spells(t, u, i)
  }

  predicate Digits(t: Bytes, i: nat)
    requires |t| == 36 && i < SIZE
  {
    HexValue(t[Place(i)]) >= 0 && HexValue(t[Place(i) + 1]) >= 0
  }

  function ByteAt(t: Bytes, i: nat): Byte
    requires |t| == 36 && i < SIZE && Digits(t, i)
  {
    HexValue(t[Place(i)]) * 16 + HexValue(t[Place(i) + 1])
  }

  /** to_string() */
  method ToText(u: Bytes) returns (t: Bytes)
    requires |u| == SIZE
    ensures Canonical(t, u)
  {
    t := [];
    for i := 0 to SIZE
      invariant |t| == if i == 0 then 0 else Place(i - 1) + 2
      invariant i > 4 ==> t[8] == DASH
      invariant i > 6 ==> t[13] == DASH
      invariant i > 8 ==> t[18] == DASH
      invariant i > 10 ==> t[23] == DASH
      invariant forall k :: 0 <= k < i ==> t[Place(k)] == HexDigit(u[k] / 16) && t[Place(k) + 1] == HexDigit(u[k] % 16)
    {
      if i == 4 || i == 6 || i == 8 || i == 10 {
        t := t + [DASH];
      }
      assert |t| == Place(i);
      t := t + [HexDigit(u[i] / 16), HexDigit(u[i] % 16)];
    }
  }

  /** parse(): accepts exactly the dashed form with hexadecimal digits of either case. */
  method Parse(t: Bytes) returns (r: Option<Bytes>)
    ensures r.Some? <==> Dashed(t) && forall i :: 0 <= i < SIZE ==> Digits(t, i)
    ensures r.Some? ==> |r.value| == SIZE && forall i :: 0 <= i < SIZE ==> r.value[i] == ByteAt(t, i)
  {
    if |t| != 36 || t[8] != DASH || t[13] != DASH || t[18] != DASH || t[23] != DASH {
      return None;
    }
    var u: Bytes := [];
    var input := 0;
    for i := 0 to SIZE
      invariant |u| == i && input == if i == 0 then 0 else Place(i - 1) + 2
      invariant forall k :: 0 <= k < i ==> Digits(t, k) && u[k] == ByteAt(t, k)
    {
      if input == 8 || input == 13 || input == 18 || input == 23 {
        input := input + 1;
      }
      assert input == Place(i);
      var high, low := HexValue(t[input]), HexValue(t[input + 1]);
      if high < 0 || low < 0 {
        assert !Digits(t, i);
        return None;
      }
      u := u + [high * 16 + low];
      input := input + 2;
    }
    return Some(u);
  }

  /** Parsing undoes spelling. */
  lemma ParseOfText(t: Bytes, u: Bytes)
    requires Canonical(t, u)
    ensures forall i :: 0 <= i < SIZE ==> Digits(t, i) && ByteAt(t, i) == u[i]
  {
    forall i | 0 <= i < SIZE
      ensures Digits(t, i) && ByteAt(t, i) == u[i]
    {
      assert Spells(t, u, i);
    }
  }

  method RoundTrip(u: Bytes) returns (r: Option<Bytes>)
    requires |u| == SIZE
    ensures r == Some(u)
  {
    var t := ToText(u);
    ParseOfText(t, u);
    r := Parse(t);
    assert r.value == u;
  }
}
