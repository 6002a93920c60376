/**
 Retry exit-code selectors: decimal codes and ranges, sorted and merged into a
 set of separate ranges. Selectors that overlap are refused, not merged.
 */
module ExitCodes {
  import opened Wrappers
  import opened Utf8

  const MAX_SELECTORS := 64
  const MAX_CODE := 255
  const DASH: Byte := 45

  datatype Range = Range(first: nat, last: nat)

  // ---------- Decimal codes ----------

  predicate Digit(c: Byte) {
    48 <= c <= 57
  }

  /** The decimal spelling of a number, without leading zeros. */
  function Decimal(n: nat): Bytes {
    if n < 10 then [48 + n] else Decimal(n / 10) + [48 + n % 10]
  }

  /** The number a row of digits stands for. */
  function Value(text: Bytes): nat
    requires forall i :: 0 <= i < |text| ==> Digit(text[i])
  {
    if text == [] then 0
    else
      assert Digit(text[|text| - 1]);
      Value(text[..|text| - 1]) * 10 + (text[|text| - 1] as int - 48)
  }

  ghost predicate Spelling(text: Bytes) {
    text != [] && (forall i :: 0 <= i < |text| ==> Digit(text[i])) && (|text| > 1 ==> text[0] != 48)
  }

  lemma {:induction false} DecimalIsSpelling(n: nat)
    ensures Spelling(Decimal(n)) && Value(Decimal(n)) == n && (n > 0 ==> Decimal(n)[0] != 48)
  {
    var t := Decimal(n);
    if n >= 10 {
      DecimalIsSpelling(n / 10);
      assert t[..|t| - 1] == Decimal(n / 10);
    } else {
      assert t[..0] == [];
    }
  }

  lemma {:induction false} SpellingIsDecimal(text: Bytes)
    requires Spelling(text)
    ensures Decimal(Value(text)) == text && (text[0] != 48 ==> Value(text) > 0)
  {
    var init, last := text[..|text| - 1], text[|text| - 1];
    assert text == init + [last];
    if |text| > 1 {
      assert init[0] == text[0];
      SpellingIsDecimal(init);
      assert Value(text) / 10 == Value(init) && Value(text) % 10 == last as int - 48;
    } else {
      assert Value(init) == 0;
    }
  }

  lemma {:induction false} ValueGrows(text: Bytes, i: nat)
    requires i <= |text| && forall k :: 0 <= k < |text| ==> Digit(text[k])
    ensures Value(text[..i]) <= Value(text)
    decreases |text| - i
  {
    if i == |text| {
      assert text[..i] == text;
    } else {
      ValueGrows(text, i + 1);
      assert text[..i + 1][..i] == text[..i];
    }
  }

  /** parse_exit_code(): exactly the decimal spellings of 0 to 255. */
  method ParseExitCode(text: Bytes) returns (r: Option<nat>)
    ensures r.Some? ==> r.value <= MAX_CODE && text == Decimal(r.value)
    ensures r.None? ==> forall n :: 0 <= n <= MAX_CODE ==> text != Decimal(n)
  {
    if text == [] || (|text| > 1 && text[0] == 48) {
      NotDecimal(text);
      return None;
    }
    var value := 0;
    for i := 0 to |text|
      invariant forall k :: 0 <= k < i ==> Digit(text[k])
      invariant value == Value(text[..i]) <= MAX_CODE
    {
      if !Digit(text[i]) {
        NotDecimal(text);
        return None;
      }
      assert text[..i + 1][..i] == text[..i];
      value := value * 10 + (text[i] as int - 48);
      if value > MAX_CODE {
        TooLarge(text, i + 1);
        return None;
      }
    }
    assert text[..|text|] == text;
    SpellingIsDecimal(text);
    return Some(value);
  }

  lemma NotDecimal(text: Bytes)
    requires !Spelling(text)
    ensures forall n :: 0 <= n <= MAX_CODE ==> text != Decimal(n)
  {
    forall n: nat | n <= MAX_CODE
      ensures text != Decimal(n)
    {
      DecimalIsSpelling(n);
    }
  }

  lemma TooLarge(text: Bytes, i: nat)
    requires i <= |text| && (forall k :: 0 <= k < i ==> Digit(text[k])) && Value(text[..i]) > MAX_CODE
    ensures forall n :: 0 <= n <= MAX_CODE ==> text != Decimal(n)
  {
    forall n: nat | n <= MAX_CODE
      ensures text != Decimal(n)
    {
      DecimalIsSpelling(n);
      if text == Decimal(n) {
        ValueGrows(text, i);
      }
    }
  }

  // ---------- Selectors ----------

  /** A selector stands for a range: one code, or two codes in increasing order. */
  ghost predicate Denotes(selector: Bytes, r: Range) {
    && r.last <= MAX_CODE
    && (if r.first == r.last then selector == Decimal(r.first)
        else r.first < r.last && selector == Decimal(r.first) + [DASH] + Decimal(r.last))
  }

  lemma NoDash(n: nat)
    ensures DASH !in Decimal(n)
  {
    DecimalIsSpelling(n);
  }

  method FindDash(s: Bytes, from: nat) returns (i: nat)
    requires from <= |s|
    ensures from <= i <= |s| && (i < |s| ==> s[i] == DASH) && forall k :: from <= k < i ==> s[k] != DASH
  {
    i := from;
    while i < |s| && s[i] != DASH
      invariant from <= i <= |s| && forall k :: from <= k < i ==> s[k] != DASH
    {
      i := i + 1;
    }
  }

  /** Where the dash of a range selector stands. */
  lemma DashOf(selector: Bytes, r: Range)
    requires Denotes(selector, r)
    ensures r.first == r.last ==> DASH !in selector
    ensures r.first != r.last ==>
              var d := |Decimal(r.first)|;
              && d < |selector| && selector[d] == DASH && (forall k :: 0 <= k < |selector| && k != d ==> selector[k] != DASH)
              && selector[..d] == Decimal(r.first) && selector[d + 1..] == Decimal(r.last)
  {
    NoDash(r.first);
    NoDash(r.last);
    if r.first != r.last {
      var a, b := Decimal(r.first), Decimal(r.last);
      assert selector == a + [DASH] + b;
      assert forall k :: |a| < k < |selector| ==> selector[k] == b[k - |a| - 1];
    }
  }

  lemma DecimalInjective(a: nat, b: nat)
    requires Decimal(a) == Decimal(b)
    ensures a == b
  {
    DecimalIsSpelling(a);
    DecimalIsSpelling(b);
  }

  /** A text without a dash can only denote the single code it spells. */
  lemma Undashed(selector: Bytes, r: Range)
    requires DASH !in selector && Denotes(selector, r)
    ensures r.first == r.last && selector == Decimal(r.first)
  {
    DashOf(selector, r);
  }

  /** A text whose first dash is at `d` can only denote the range of the codes around it. */
  lemma Dashed(selector: Bytes, d: nat, r: Range)
    requires d < |selector| && selector[d] == DASH && (forall k :: 0 <= k < d ==> selector[k] != DASH)
    requires Denotes(selector, r)
    ensures r.first < r.last && selector[..d] == Decimal(r.first) && selector[d + 1..] == Decimal(r.last)
    ensures forall k :: d < k < |selector| ==> selector[k] != DASH
  {
    DashOf(selector, r);
    assert r.first != r.last ==> d == |Decimal(r.first)|;
  }

  lemma NotOneCode(selector: Bytes)
    requires DASH !in selector && forall n :: 0 <= n <= MAX_CODE ==> selector != Decimal(n)
    ensures forall r :: !Denotes(selector, r)
  {
    forall r
      ensures !Denotes(selector, r)
    {
      if Denotes(selector, r) {
        Undashed(selector, r);
        assert false;
      }
    }
  }

  lemma NotARange(selector: Bytes, d: nat, first: Option<nat>, last: Option<nat>)
    requires d < |selector| && selector[d] == DASH && (forall k :: 0 <= k < d ==> selector[k] != DASH)
    requires first.Some? ==> selector[..d] == Decimal(first.value)
    requires first.None? ==> forall n :: 0 <= n <= MAX_CODE ==> selector[..d] != Decimal(n)
    requires last.Some? ==> selector[d + 1..] == Decimal(last.value)
    requires last.None? ==> forall n :: 0 <= n <= MAX_CODE ==> selector[d + 1..] != Decimal(n)
    requires first.None? || last.None? || first.value >= last.value || DASH in selector[d + 1..]
    ensures forall r :: !Denotes(selector, r)
  {
    forall r
      ensures !Denotes(selector, r)
    {
      if Denotes(selector, r) {
        Dashed(selector, d, r);
        NoDash(r.last);
        if first.Some? && last.Some? {
          DecimalInjective(first.value, r.first);
          DecimalInjective(last.value, r.last);
        }
        assert false;
      }
    }
  }

  /** parse_selector() */
  method ParseSelector(selector: Bytes) returns (r: Option<Range>)
    ensures r.Some? ==> Denotes(selector, r.value)
    ensures r.None? ==> forall range :: !Denotes(selector, range)
  {
    var dash := FindDash(selector, 0);
    if dash == |selector| {
      var code := ParseExitCode(selector);
      if code.None? {
        NotOneCode(selector);
        return None;
      }
      return Some(Range(code.value, code.value));
    }
    var second := FindDash(selector, dash + 1);
    var first := ParseExitCode(selector[..dash]);
    var last := ParseExitCode(selector[dash + 1..]);
    if second < |selector| || first.None? || last.None? || first.value >= last.value {
      assert second < |selector| ==> selector[dash + 1..][second - dash - 1] == DASH;
      NotARange(selector, dash, first, last);
      return None;
    }
    assert selector == selector[..dash] + [DASH] + selector[dash + 1..];
    return Some(Range(first.value, last.value));
  }

  // ---------- Coverage ----------

  function In(r: Range, code: int): nat {
    if r.first <= code <= r.last then 1 else 0
  }

  /** How many of the ranges contain a code. */
  function Cover(ranges: seq<Range>, code: int): nat {
    if ranges == [] then 0 else Cover(ranges[..|ranges| - 1], code) + In(ranges[|ranges| - 1], code)
  }

  lemma CoverMore(ranges: seq<Range>, r: Range, code: int)
    ensures Cover(ranges + [r], code) == Cover(ranges, code) + In(r, code)
  {
    assert (ranges + [r])[..|ranges|] == ranges;
  }

  lemma {:induction false} CoverSplit(a: seq<Range>, b: seq<Range>, code: int)
    ensures Cover(a + b, code) == Cover(a, code) + Cover(b, code)
    decreases |b|
  {
    if b == [] {
      assert a + b == a;
    } else {
      var init, last := b[..|b| - 1], b[|b| - 1];
      assert a + b == a + init + [last];
      CoverMore(a + init, last, code);
      CoverSplit(a, init, code);
    }
  }

  // ---------- Sorting ----------

  predicate Sorted(ranges: seq<Range>) {
    forall i, j :: 0 <= i < j < |ranges| ==> ranges[i].first <= ranges[j].first
  }

  predicate Proper(ranges: seq<Range>) {
    forall i :: 0 <= i < |ranges| ==> ranges[i].first <= ranges[i].last <= MAX_CODE
  }

  lemma CoverInserted(ranges: seq<Range>, k: nat, r: Range, code: int)
    requires k <= |ranges|
    ensures Cover(ranges[..k] + [r] + ranges[k..], code) == Cover(ranges, code) + In(r, code)
  {
    CoverSplit(ranges[..k] + [r], ranges[k..], code);
    CoverMore(ranges[..k], r, code);
    CoverSplit(ranges[..k], ranges[k..], code);
    assert ranges[..k] + ranges[k..] == ranges;
  }

  method Insert(ranges: seq<Range>, r: Range) returns (s: seq<Range>)
    requires Sorted(ranges) && Proper(ranges) && r.first <= r.last <= MAX_CODE
    ensures Sorted(s) && Proper(s)
    ensures forall code :: Cover(s, code) == Cover(ranges, code) + In(r, code)
  {
    var k := |ranges|;
    while k > 0 && ranges[k - 1].first > r.first
      invariant 0 <= k <= |ranges| && forall i :: k <= i < |ranges| ==> ranges[i].first > r.first
    {
      k := k - 1;
    }
    s := ranges[..k] + [r] + ranges[k..];
    InsertedSorted(ranges, k, r);
    forall code
      ensures Cover(s, code) == Cover(ranges, code) + In(r, code)
    {
      CoverInserted(ranges, k, r, code);
    }
  }

  lemma InsertedSorted(ranges: seq<Range>, k: nat, r: Range)
    requires Sorted(ranges) && Proper(ranges) && r.first <= r.last <= MAX_CODE && k <= |ranges|
    requires k > 0 ==> ranges[k - 1].first <= r.first
    requires forall i :: k <= i < |ranges| ==> ranges[i].first > r.first
    ensures Sorted(ranges[..k] + [r] + ranges[k..]) && Proper(ranges[..k] + [r] + ranges[k..])
  {
    var s := ranges[..k] + [r] + ranges[k..];
    forall i | 0 <= i < |s|
      ensures s[i] == if i < k then ranges[i] else if i == k then r else ranges[i - 1]
    {
    }
  }

  method SortRanges(ranges: seq<Range>) returns (s: seq<Range>)
    requires Proper(ranges)
    ensures Sorted(s) && Proper(s)
    ensures forall code :: Cover(s, code) == Cover(ranges, code)
  {
    s := [];
    for i := 0 to |ranges|
      invariant Sorted(s) && Proper(s)
      invariant forall code :: Cover(s, code) == Cover(ranges[..i], code)
    {
      assert ranges[..i + 1][..i] == ranges[..i];
      s := Insert(s, ranges[i]);
    }
    assert ranges[..|ranges|] == ranges;
  }

  // ---------- Merging ----------

  /** Increasing ranges with a gap between any two. */
  predicate Apart(ranges: seq<Range>) {
    forall i, j :: 0 <= i < j < |ranges| ==> ranges[i].last + 1 < ranges[j].first
  }

  /** A code outside every range is not covered. */
  lemma {:induction false} Missed(ranges: seq<Range>, code: int)
    requires forall i :: 0 <= i < |ranges| ==> ranges[i].last < code || code < ranges[i].first
    ensures Cover(ranges, code) == 0
  {
    if ranges != [] {
      Missed(ranges[..|ranges| - 1], code);
    }
  }

  lemma {:induction false} ApartCovers(ranges: seq<Range>, code: int)
    requires Apart(ranges) && Proper(ranges)
    ensures Cover(ranges, code) <= 1
  {
    if ranges != [] {
      var init, last := ranges[..|ranges| - 1], ranges[|ranges| - 1];
      ApartCovers(init, code);
      if In(last, code) == 1 {
        Missed(init, code);
      }
    }
  }

  /** A prefix covers no code more often than the whole. */
  lemma CoverGrows(ranges: seq<Range>, i: nat, code: int)
    requires i <= |ranges|
    ensures Cover(ranges[..i], code) <= Cover(ranges, code)
  {
    CoverSplit(ranges[..i], ranges[i..], code);
    assert ranges[..i] + ranges[i..] == ranges;
  }

  /** Joining two adjacent ranges covers the same codes. */
  lemma CoverJoined(ranges: seq<Range>, r: Range, code: int)
    requires ranges != [] && Proper(ranges) && r.first <= r.last && r.first == ranges[|ranges| - 1].last + 1
    ensures Cover(ranges[..|ranges| - 1] + [Range(ranges[|ranges| - 1].first, r.last)], code)
         == Cover(ranges, code) + In(r, code)
  {
    CoverMore(ranges[..|ranges| - 1], Range(ranges[|ranges| - 1].first, r.last), code);
  }

  /** What the merge loop knows: the merged ranges cover what was read, and end where the last range read ends. */
  ghost predicate Merged(merged: seq<Range>, ranges: seq<Range>, i: nat)
    requires i <= |ranges|
  {
    && Apart(merged) && Proper(merged) && (merged == [] <==> i == 0)
    && (i > 0 ==> merged[|merged| - 1].last == ranges[i - 1].last
                  && merged[|merged| - 1].first <= ranges[i - 1].first)
    && (forall code :: Cover(merged, code) == Cover(ranges[..i], code))
  }

  lemma Prefix(ranges: seq<Range>, i: nat, code: int)
    requires i < |ranges|
    ensures Cover(ranges[..i + 1], code) == Cover(ranges[..i], code) + In(ranges[i], code)
  {
    assert ranges[..i + 1][..i] == ranges[..i];
  }

  /** A range that starts inside the last merged one covers its first code a second time. */
  lemma Overlapping(merged: seq<Range>, ranges: seq<Range>, i: nat)
    requires i < |ranges| && Merged(merged, ranges, i) && Sorted(ranges) && Proper(ranges)
    requires merged != [] && ranges[i].first <= merged[|merged| - 1].last
    ensures Cover(ranges, ranges[i].first) >= 2
  {
    var code := ranges[i].first;
    assert merged[|merged| - 1].first <= ranges[i - 1].first <= code;
    assert In(merged[|merged| - 1], code) == 1;
    Prefix(ranges, i, code);
    CoverGrows(ranges, i + 1, code);
  }

  lemma Joins(merged: seq<Range>, ranges: seq<Range>, i: nat)
    requires i < |ranges| && Merged(merged, ranges, i) && Sorted(ranges) && Proper(ranges)
    requires merged != [] && ranges[i].first == merged[|merged| - 1].last + 1
    ensures Merged(merged[..|merged| - 1] + [Range(merged[|merged| - 1].first, ranges[i].last)], ranges, i + 1)
  {
    var joined := merged[..|merged| - 1] + [Range(merged[|merged| - 1].first, ranges[i].last)];
    forall code
      ensures Cover(joined, code) == Cover(ranges[..i + 1], code)
    {
      CoverJoined(merged, ranges[i], code);
      Prefix(ranges, i, code);
    }
  }

  lemma Starts(merged: seq<Range>, ranges: seq<Range>, i: nat)
    requires i < |ranges| && Merged(merged, ranges, i) && Sorted(ranges) && Proper(ranges)
    requires merged != [] ==> ranges[i].first > merged[|merged| - 1].last + 1
    ensures Merged(merged + [ranges[i]], ranges, i + 1)
  {
    var longer := merged + [ranges[i]];
    forall code
      ensures Cover(longer, code) == Cover(ranges[..i + 1], code)
    {
      CoverMore(merged, ranges[i], code);
      Prefix(ranges, i, code);
    }
  }

  /** Some code is named twice. */
  ghost predicate Overlap(ranges: seq<Range>) {
    exists code :: Cover(ranges, code) >= 2
  }

  lemma SameOverlap(a: seq<Range>, b: seq<Range>)
    requires forall code :: Cover(a, code) == Cover(b, code)
    ensures Overlap(a) <==> Overlap(b)
  {
    if Overlap(a) {
      var code :| Cover(a, code) >= 2;
      assert Cover(b, code) >= 2;
    }
    if Overlap(b) {
      var code :| Cover(b, code) >= 2;
      assert Cover(a, code) >= 2;
    }
  }

  /** Merges sorted ranges; None exactly when some code is covered twice. */
  method Normalize(ranges: seq<Range>) returns (r: Option<seq<Range>>)
    requires Sorted(ranges) && Proper(ranges)
    ensures r.None? <==> Overlap(ranges)
    ensures r.Some? ==> Apart(r.value) && Proper(r.value) && forall code :: Cover(r.value, code) == Cover(ranges, code)
  {
    var merged: seq<Range> := [];
    assert ranges[..0] == [];
    for i := 0 to |ranges|
      invariant Merged(merged, ranges, i)
    {
      var range := ranges[i];
      if merged != [] && range.first <= merged[|merged| - 1].last {
        Overlapping(merged, ranges, i);
        return None;
      }
      if merged != [] && range.first == merged[|merged| - 1].last + 1 {
        Joins(merged, ranges, i);
        merged := merged[..|merged| - 1] + [Range(merged[|merged| - 1].first, range.last)];
      } else {
        Starts(merged, ranges, i);
        merged := merged + [range];
      }
    }
    assert ranges[..|ranges|] == ranges;
    forall code
      ensures Cover(ranges, code) <= 1
    {
      ApartCovers(merged, code);
    }
    return Some(merged);
  }

  lemma StopsHere(ranges: seq<Range>, i: nat, code: int)
    requires Apart(ranges) && Proper(ranges) && i < |ranges| && code <= ranges[i].last
    requires forall k :: 0 <= k < i ==> ranges[k].last < code
    ensures Cover(ranges, code) > 0 <==> ranges[i].first <= code
  {
    if ranges[i].first <= code {
      Prefix(ranges, i, code);
      CoverGrows(ranges, i + 1, code);
    } else {
      assert forall k :: i < k < |ranges| ==> ranges[i].last + 1 < ranges[k].first;
      Missed(ranges, code);
    }
  }

  /** contains(): the early exit is right because the ranges are in order. */
  method Contains(ranges: seq<Range>, code: int) returns (found: bool)
    requires Apart(ranges) && Proper(ranges)
    ensures found <==> Cover(ranges, code) > 0
  {
    if code < 0 || code > MAX_CODE {
      OutOfRange(ranges, code);
      return false;
    }
    for i := 0 to |ranges|
      invariant forall k :: 0 <= k < i ==> ranges[k].last < code
    {
      if code <= ranges[i].last {
        StopsHere(ranges, i, code);
      }
      if code < ranges[i].first {
        return false;
      }
      if code <= ranges[i].last {
        return true;
      }
    }
    Missed(ranges, code);
    return false;
  }

  lemma OutOfRange(ranges: seq<Range>, code: int)
    requires Proper(ranges) && (code < 0 || code > MAX_CODE)
    ensures Cover(ranges, code) == 0
  {
    Missed(ranges, code);
  }

  // ---------- Decoding a selector list ----------

  /** `ranges` are the ranges the selectors stand for, in order; None stands for a value that is not text. */
  ghost predicate Reads(selectors: seq<Option<Bytes>>, ranges: seq<Range>) {
    && |ranges| == |selectors|
    && forall i :: 0 <= i < |selectors| ==> selectors[i].Some? && Denotes(selectors[i].value, ranges[i])
  }

  method ParseAll(selectors: seq<Option<Bytes>>) returns (r: Option<seq<Range>>)
    ensures r.Some? ==> Reads(selectors, r.value) && Proper(r.value)
    ensures r.None? ==> forall ranges :: !Reads(selectors, ranges)
  {
    var ranges: seq<Range> := [];
    for i := 0 to |selectors|
      invariant |ranges| == i && Proper(ranges)
      invariant forall k :: 0 <= k < i ==> selectors[k].Some? && Denotes(selectors[k].value, ranges[k])
    {
      if selectors[i].None? {
        return None;
      }
      var range := ParseSelector(selectors[i].value);
      if range.None? {
        return None;
      }
      ranges := ranges + [range.value];
    }
    return Some(ranges);
  }

  lemma DenotesOne(selector: Bytes, a: Range, b: Range)
    requires Denotes(selector, a) && Denotes(selector, b)
    ensures a == b
  {
    DashOf(selector, a);
    DashOf(selector, b);
    DecimalInjective(a.first, b.first);
    DecimalInjective(a.last, b.last);
  }

  lemma ReadsOne(selectors: seq<Option<Bytes>>, a: seq<Range>, b: seq<Range>)
    requires Reads(selectors, a) && Reads(selectors, b)
    ensures a == b
  {
    forall i | 0 <= i < |selectors|
      ensures a[i] == b[i]
    {
      DenotesOne(selectors[i].value, a[i], b[i]);
    }
  }

  /** A selector that names the code. */
  ghost predicate NamedAt(selectors: seq<Option<Bytes>>, i: int, code: int) {
    0 <= i < |selectors| && selectors[i].Some? && exists r :: Denotes(selectors[i].value, r) && r.first <= code <= r.last
  }

  ghost predicate Named(selectors: seq<Option<Bytes>>, code: int) {
    exists i :: NamedAt(selectors, i, code)
  }

  lemma {:induction false} CoveredBy(ranges: seq<Range>, code: int) returns (i: nat)
    requires Cover(ranges, code) > 0
    ensures i < |ranges| && In(ranges[i], code) == 1
  {
    if In(ranges[|ranges| - 1], code) == 1 {
      i := |ranges| - 1;
    } else {
      i := CoveredBy(ranges[..|ranges| - 1], code);
    }
  }

  lemma CoverIsNaming(selectors: seq<Option<Bytes>>, ranges: seq<Range>, code: int)
    requires Reads(selectors, ranges)
    ensures Cover(ranges, code) > 0 <==> Named(selectors, code)
  {
    if Cover(ranges, code) > 0 {
      var i := CoveredBy(ranges, code);
      assert NamedAt(selectors, i, code);
    }
    if Named(selectors, code) {
      var i :| NamedAt(selectors, i, code);
      var r :| Denotes(selectors[i].value, r) && r.first <= code <= r.last;
      DenotesOne(selectors[i].value, r, ranges[i]);
      Prefix(ranges, i, code);
      CoverGrows(ranges, i + 1, code);
    }
  }

  /** Few enough selectors, all readable, and no code named twice. */
  ghost predicate Decodable(selectors: seq<Option<Bytes>>) {
    |selectors| <= MAX_SELECTORS && exists ranges :: Reads(selectors, ranges) && !Overlap(ranges)
  }

  /**
   decode_cli_retry_exit_codes(): fails exactly for too many selectors, for one
   that cannot be read, and for two that share a code; otherwise a code is in
   the set exactly when one of the selectors names it.
   */
  method Decode(selectors: seq<Option<Bytes>>) returns (r: Option<seq<Range>>)
    ensures r.Some? <==> Decodable(selectors)
    ensures r.Some? ==> Apart(r.value) && Proper(r.value)
    ensures r.Some? ==> forall code :: Cover(r.value, code) > 0 <==> Named(selectors, code)
  {
    if |selectors| > MAX_SELECTORS {
      return None;
    }
    var parsed := ParseAll(selectors);
    if parsed.None? {
      return None;
    }
    var ranges := parsed.value;
    var sorted := SortRanges(ranges);
    r := Normalize(sorted);
    SameOverlap(sorted, ranges);
    forall other | Reads(selectors, other)
      ensures other == ranges
    {
      ReadsOne(selectors, other, ranges);
    }
    if r.Some? {
      forall code
        ensures Cover(r.value, code) > 0 <==> Named(selectors, code)
      {
        assert Cover(r.value, code) == Cover(sorted, code);
        CoverIsNaming(selectors, ranges, code);
      }
    }
  }
}
