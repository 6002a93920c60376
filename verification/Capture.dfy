/**
 The output capture buffer: the first half of the limit is a plain prefix, the
 second half a ring that holds the newest bytes.
 */
module Capture {
  import opened Utf8

  const MAX_TOTAL := 0xffff_ffff_ffff_ffff

  /** The limit split in two, the first half the larger one when it is odd. */
  predicate Halved(limit: nat, head: nat, tail: nat) {
    head + tail == limit && tail <= head <= tail + 1
  }

  method Halve(limit: nat) returns (head: nat, tail: nat)
    ensures Halved(limit, head, tail)
  {
    head, tail := limit / 2 + limit % 2, limit / 2;
  }

  /** What is kept of a stream: all of it, or its first `head` and its last `tail` bytes. */
  function Kept(stream: Bytes, head: nat, tail: nat): Bytes {
    if |stream| <= head + tail then stream else stream[..head] + stream[|stream| - tail..]
  }

  function Min(a: nat, b: nat): nat {
    if a < b then a else b
  }

  // ---------- The ring ----------

  /** The bytes of a full ring, oldest first. */
  function Unrolled(ring: Bytes, start: nat): Bytes
    requires start <= |ring|
  {
    ring[start..] + ring[..start]
  }

  /** The ring after bytes that do not fill it were written over its oldest ones. */
  function Written(ring: Bytes, start: nat, bytes: Bytes): Bytes
    requires start < |ring| && |bytes| < |ring|
  {
    var first := Min(|bytes|, |ring| - start);
    bytes[first..] + ring[|bytes| - first..start] + bytes[..first] + ring[start + first..]
  }

  lemma WrapsOnce(x: int, size: int)
    requires 0 < size <= x < 2 * size
    ensures x % size == x - size
  {
    var e := x / size - 1;
    assert e * size == x - size - x % size;
    assert e > 0 ==> e * size >= size;
    assert e < 0 ==> e * size <= -size;
  }

  /** The ring index `n` places on. */
  method Advance(start: nat, n: nat, size: nat) returns (r: nat)
    requires start < size && n < size
    ensures r == if start + n < size then start + n else start + n - size
  {
    if start + n >= size {
      WrapsOnce(start + n, size);
    }
    r := (start + n) % size;
  }

  lemma WrittenUnrolled(ring: Bytes, start: nat, bytes: Bytes)
    requires start < |ring| && |bytes| < |ring|
    ensures |Written(ring, start, bytes)| == |ring|
    ensures var next := if start + |bytes| < |ring| then start + |bytes| else start + |bytes| - |ring|;
            Unrolled(Written(ring, start, bytes), next) == Unrolled(ring, start)[|bytes|..] + bytes
  {
    var n, size := |bytes|, |ring|;
    var first := Min(n, size - start);
    var w := Written(ring, start, bytes);
    if start + n < size {
      assert w == ring[..start] + bytes + ring[start + n..];
    } else {
      assert w == bytes[first..] + ring[n - first..start] + bytes[..first];
      assert bytes == bytes[..first] + bytes[first..];
    }
  }

  // ---------- The buffer ----------

  /** The ring holds the newest bytes of `rest`, the stream after the prefix. */
  ghost predicate Holds(suffix: Bytes, start: nat, rest: Bytes, tail: nat) {
    if |rest| <= tail then suffix == rest && start == 0
    else |suffix| == tail && start <= |suffix| && (tail > 0 ==> start < tail)
         && Unrolled(suffix, start) == rest[|rest| - tail..]
  }

  lemma HoldsNothing(suffix: Bytes, start: nat, rest: Bytes, bytes: Bytes, tail: nat)
    requires Holds(suffix, start, rest, tail) && (tail == 0 || bytes == [])
    ensures Holds(suffix, start, rest + bytes, tail)
  {
    assert bytes == [] ==> rest + bytes == rest;
  }

  lemma HoldsMore(suffix: Bytes, rest: Bytes, bytes: Bytes, tail: nat)
    requires Holds(suffix, 0, rest, tail) && |rest| + |bytes| <= tail
    ensures Holds(suffix + bytes, 0, rest + bytes, tail)
  {
  }

  /** A chunk at least as long as the ring replaces it. */
  lemma HoldsAnew(rest: Bytes, bytes: Bytes, tail: nat)
    requires |bytes| >= tail > 0 && |rest| + |bytes| > tail
    ensures Holds(bytes[|bytes| - tail..], 0, rest + bytes, tail)
  {
    assert (rest + bytes)[|rest + bytes| - tail..] == bytes[|bytes| - tail..];
  }

  /** A shorter chunk overwrites the oldest bytes of a full ring. */
  lemma HoldsOver(suffix: Bytes, start: nat, rest: Bytes, bytes: Bytes, tail: nat)
    requires Holds(suffix, start, rest, tail) && 0 < |bytes| < tail <= |rest|
    ensures |suffix| == tail && start < tail
    ensures var next := if start + |bytes| < tail then start + |bytes| else start + |bytes| - tail;
            Holds(Written(suffix, start, bytes), next, rest + bytes, tail)
  {
    assert Unrolled(suffix, start) == rest[|rest| - tail..] by {
      if |rest| == tail {
        assert Unrolled(suffix, 0) == suffix == rest == rest[0..];
      }
    }
    WrittenUnrolled(suffix, start, bytes);
    assert (rest + bytes)[|rest + bytes| - tail..] == rest[|rest| - tail..][|bytes|..] + bytes;
  }

  class Buffer {
    const limit: nat
    const head: nat
    const tail: nat
    var prefix: Bytes
    var suffix: Bytes
    var start: nat
    var total: nat

    ghost var stream: Bytes

    ghost predicate Valid()
      reads this
    {
      var cut := Min(|stream|, head);
      && Halved(limit, head, tail)
      && total == |stream| <= MAX_TOTAL
      && prefix == stream[..cut]
      && Holds(suffix, start, stream[cut..], tail)
    }

    constructor (limit: nat)
      ensures Valid() && stream == [] && this.limit == limit
    {
      this.limit := limit;
      var first, second := Halve(limit);
      head, tail := first, second;
      prefix, suffix, start, total, stream := [], [], 0, 0, [];
    }

    /** Fills the ring up; what does not fit any more is left. */
    method Fill(bytes: Bytes, ghost rest: Bytes) returns (initial: nat)
      requires Holds(suffix, start, rest, tail)
      modifies this`suffix
      ensures initial <= |bytes| && Holds(suffix, start, rest + bytes[..initial], tail)
      ensures initial < |bytes| ==> |suffix| == tail <= |rest| + initial
    {
      initial := Min(tail - |suffix|, |bytes|);
      if initial > 0 {
        HoldsMore(suffix, rest, bytes[..initial], tail);
        suffix := suffix + bytes[..initial];
      } else {
        assert rest + bytes[..0] == rest;
      }
    }

    method Overwrite(bytes: Bytes, ghost rest: Bytes)
      requires Holds(suffix, start, rest, tail) && |suffix| == tail <= |rest| && tail > 0 && bytes != []
      modifies this`suffix, this`start
      ensures Holds(suffix, start, rest + bytes, tail)
    {
      if |bytes| >= tail {
        HoldsAnew(rest, bytes, tail);
        suffix, start := bytes[|bytes| - tail..], 0;
      } else {
        HoldsOver(suffix, start, rest, bytes, tail);
        suffix := Written(suffix, start, bytes);
        start := Advance(start, |bytes|, tail);
      }
    }

    /** append_suffix(): the ring goes on to hold the newest bytes. */
    method AppendSuffix(bytes: Bytes, ghost rest: Bytes)
      requires Holds(suffix, start, rest, tail)
      modifies this`suffix, this`start
      ensures Holds(suffix, start, rest + bytes, tail)
    {
      if tail == 0 || bytes == [] {
        HoldsNothing(suffix, start, rest, bytes, tail);
        return;
      }
      var initial := Fill(bytes, rest);
      assert rest + bytes == rest + bytes[..initial] + bytes[initial..];
      if initial < |bytes| {
        Overwrite(bytes[initial..], rest + bytes[..initial]);
      } else {
        assert bytes[..initial] == bytes;
      }
    }

    /** append(): an append past the largest total changes nothing; any other one extends the stream. */
    method Append(bytes: Bytes) returns (ok: bool)
      requires Valid()
      modifies this
      ensures Valid() && ok == (|old(stream)| + |bytes| <= MAX_TOTAL)
      ensures stream == if ok then old(stream) + bytes else old(stream)
      ensures !ok ==> prefix == old(prefix) && suffix == old(suffix) && start == old(start) && total == old(total)
    {
      if |bytes| > MAX_TOTAL - total {
        return false;
      }
      var count := Min(head - |prefix|, |bytes|);
      ghost var cut := Min(|stream|, head);
      ghost var rest := stream[cut..];
      CutMoves(stream, bytes, head);
      prefix := prefix + bytes[..count];
      AppendSuffix(bytes[count..], rest);
      total := total + |bytes|;
      stream := stream + bytes;
      return true;
    }

    /** Back to an empty buffer of the same size. */
    method Reset()
      requires Halved(limit, head, tail)
      modifies this
      ensures Valid() && stream == []
    {
      prefix, suffix, start, total, stream := [], [], 0, 0, [];
    }

    /** take(): the kept part of everything appended since the last take, and a fresh start. */
    method Take() returns (bytes: Bytes, observed: nat, truncated: bool)
      requires Valid()
      modifies this
      ensures Valid() && stream == []
      ensures bytes == Kept(old(stream), head, tail)
      ensures observed == |old(stream)| && (truncated <==> |old(stream)| > limit)
    {
      AssembledIsKept(stream, prefix, suffix, start, head, tail);
      bytes := Assembled(prefix, suffix, start, tail);
      observed, truncated := total, total > |bytes|;
      Reset();
    }
  }

  /** Appending moves the end of the prefix and the start of the rest together. */
  lemma CutMoves(stream: Bytes, bytes: Bytes, head: nat)
    ensures var cut := Min(|stream|, head);
            var count := Min(head - cut, |bytes|);
            var all := stream + bytes;
            && all[..Min(|all|, head)] == stream[..cut] + bytes[..count]
            && all[Min(|all|, head)..] == stream[cut..] + bytes[count..]
  {
  }

  /** The prefix and then the ring in stream order. */
  function Assembled(prefix: Bytes, suffix: Bytes, start: nat, tail: nat): Bytes
    requires start <= |suffix|
  {
    if |suffix| < tail || start == 0 then prefix + suffix else prefix + suffix[start..] + suffix[..start]
  }

  lemma AssembledIsKept(stream: Bytes, prefix: Bytes, suffix: Bytes, start: nat, head: nat, tail: nat)
    requires prefix == stream[..Min(|stream|, head)]
    requires Holds(suffix, start, stream[Min(|stream|, head)..], tail)
    ensures start <= |suffix|
    ensures Assembled(prefix, suffix, start, tail) == Kept(stream, head, tail)
    ensures |Kept(stream, head, tail)| == Min(|stream|, head + tail)
  {
    var rest := stream[Min(|stream|, head)..];
    if |rest| > tail {
      assert rest[|rest| - tail..] == stream[|stream| - tail..];
      assert Assembled(prefix, suffix, start, tail) == prefix + Unrolled(suffix, start);
    } else {
      assert prefix + rest == stream;
    }
  }

  function Joined(chunks: seq<Bytes>): Bytes {
    if chunks == [] then [] else Joined(chunks[..|chunks| - 1]) + chunks[|chunks| - 1]
  }

  lemma {:induction false} JoinedGrows(chunks: seq<Bytes>, i: nat)
    requires i <= |chunks|
    ensures |Joined(chunks[..i])| <= |Joined(chunks)|
    decreases |chunks| - i
  {
    if i == |chunks| {
      assert chunks[..i] == chunks;
    } else {
      JoinedGrows(chunks, i + 1);
      assert chunks[..i + 1][..i] == chunks[..i];
    }
  }

  /** However a stream is cut into chunks, the same part of it is kept. */
  method CaptureAll(chunks: seq<Bytes>, limit: nat) returns (bytes: Bytes, truncated: bool, ghost head: nat, ghost tail: nat)
    requires |Joined(chunks)| <= MAX_TOTAL
    ensures Halved(limit, head, tail) && bytes == Kept(Joined(chunks), head, tail)
    ensures truncated <==> |Joined(chunks)| > limit
  {
    var buffer := new Buffer(limit);
    for i := 0 to |chunks|
      invariant buffer.Valid() && buffer.limit == limit && buffer.stream == Joined(chunks[..i])
    {
      assert chunks[..i + 1][..i] == chunks[..i];
      JoinedGrows(chunks, i + 1);
      var ok := buffer.Append(chunks[i]);
    }
    assert chunks[..|chunks|] == chunks;
    head, tail := buffer.head, buffer.tail;
    var observed: nat;
    bytes, observed, truncated := buffer.Take();
  }
}
