/**
 Parsing of five-field cron expressions into bit sets, against a denotation
 that says which values each member of a field selects.
 */
module CronParser {
  import opened Wrappers
  import opened CronSearch

  const MAXIMUM_EXPRESSION_BYTES := 512
  const UNSIGNED_LIMIT := 0x1_0000_0000

  const MONTH_NAMES: map<string, int> := map[
    "JAN" := 1, "FEB" := 2, "MAR" := 3, "APR" := 4, "MAY" := 5, "JUN" := 6,
    "JUL" := 7, "AUG" := 8, "SEP" := 9, "OCT" := 10, "NOV" := 11, "DEC" := 12]

  const WEEKDAY_NAMES: map<string, int> := map[
    "SUN" := 0, "MON" := 1, "TUE" := 2, "WED" := 3, "THU" := 4, "FRI" := 5, "SAT" := 6]

  const MONTH_ORDER := ["JAN", "FEB", "MAR", "APR", "MAY", "JUN", "JUL", "AUG", "SEP", "OCT", "NOV", "DEC"]
  const WEEKDAY_ORDER := ["SUN", "MON", "TUE", "WED", "THU", "FRI", "SAT"]

  /** The names are those of the calendar, each standing for its place in the year or the week. */
  lemma NamesInOrder(name: string)
    ensures forall k :: 0 <= k < 12 ==> MONTH_ORDER[k] in MONTH_NAMES && MONTH_NAMES[MONTH_ORDER[k]] == k + 1
    ensures forall k :: 0 <= k < 7 ==> WEEKDAY_ORDER[k] in WEEKDAY_NAMES && WEEKDAY_NAMES[WEEKDAY_ORDER[k]] == k
    ensures name in MONTH_NAMES ==> name in MONTH_ORDER
    ensures name in WEEKDAY_NAMES ==> name in WEEKDAY_ORDER
  {
    if name in MONTH_NAMES {
      assert name == MONTH_ORDER[MONTH_NAMES[name] - 1];
    }
    if name in WEEKDAY_NAMES {
      assert name == WEEKDAY_ORDER[WEEKDAY_NAMES[name]];
    }
  }

  // ---------- Text ----------

  predicate IsSeparator(c: char) {
    c == ' ' || c == '\t'
  }

  function UpperChar(c: char): char {
    if 'a' <= c <= 'z' then (c as int - 32) as char else c
  }

  function Upper(s: string): string {
    seq(|s|, i requires 0 <= i < |s| => UpperChar(s[i]))
  }

  /** The first position of `c` at or after `from`, or the length of `s`. */
  function IndexOf(s: string, c: char, from: nat): (i: nat)
    requires from <= |s|
    ensures from <= i <= |s|
    ensures c !in s[from..i]
    ensures i < |s| ==> s[i] == c
    decreases |s| - from
  {
    if from == |s| || s[from] == c then from
    else
      var i := IndexOf(s, c, from + 1);
      assert s[from..i] == [s[from]] + s[from + 1..i];
      i
  }

  /** The pieces of a text between its separators, in order; there is at least one. */
  datatype Pieces = Last(piece: string) | Piece(piece: string, rest: Pieces)

  /** The pieces of `s` between the separators `c`; a text without separators is its only piece. */
  function Split(s: string, c: char): Pieces {
    SplitFrom(s, c, 0)
  }

  function SplitFrom(s: string, c: char, from: nat): Pieces
    requires from <= |s|
    decreases |s| - from
  {
    var i := IndexOf(s, c, from);
    if i == |s| then Last(s[from..i]) else Piece(s[from..i], SplitFrom(s, c, i + 1))
  }

  /** The pieces with one separator between each two of them. */
  function Joined(pieces: Pieces, c: char): string {
    match pieces
    case Last(piece) => piece
    case Piece(piece, rest) => piece + [c] + Joined(rest, c)
  }

  ghost predicate Has(pieces: Pieces, piece: string) {
    pieces.piece == piece || (pieces.Piece? && Has(pieces.rest, piece))
  }

  /** No piece contains the separator, and together they make up the text. */
  lemma {:induction false} SplitIsExact(s: string, c: char, from: nat)
    requires from <= |s|
    ensures Joined(SplitFrom(s, c, from), c) == s[from..]
    ensures forall piece :: Has(SplitFrom(s, c, from), piece) ==> c !in piece
    decreases |s| - from
  {
    var i := IndexOf(s, c, from);
    if i < |s| {
      SplitIsExact(s, c, i + 1);
      assert s[from..] == s[from..i] + [c] + s[i + 1..];
    } else {
      assert s[from..] == s[from..i];
    }
  }

  /** A separator that may occur once: where it is, if it does not occur again. */
  method CutOnce(s: string, c: char) returns (once: bool, i: nat)
    ensures i <= |s| && Split(s, c).piece == s[..i] && (i == |s| <==> Split(s, c).Last?)
    ensures once <==> i == |s| || Split(s, c).rest.Last?
    ensures once && i < |s| ==> Split(s, c).rest.piece == s[i + 1..]
  {
    i := IndexOf(s, c, 0);
    once := true;
    if i < |s| {
      var j := IndexOf(s, c, i + 1);
      once := j == |s|;
      assert Split(s, c).rest == SplitFrom(s, c, i + 1);
      assert s[i + 1..j] == SplitFrom(s, c, i + 1).piece;
    }
  }

  predicate IsDigit(c: char) {
    '0' <= c <= '9'
  }

  function Decimal(s: string): nat
    requires forall i :: 0 <= i < |s| ==> IsDigit(s[i])
  {
    if s == [] then 0
    else
      assert IsDigit(s[|s| - 1]);
      10 * Decimal(s[..|s| - 1]) + (s[|s| - 1] as int - '0' as int)
  }

  /** A nonempty run of digits whose value fits an unsigned 32-bit integer. */
  function ParseUnsigned(s: string): Option<nat> {
    if s != [] && (forall i :: 0 <= i < |s| ==> IsDigit(s[i])) && Decimal(s) < UNSIGNED_LIMIT
    then Some(Decimal(s)) else None
  }

  // ---------- What a member selects ----------

  /** An arithmetic progression from `first` to at most `last`. */
  datatype Steps = Steps(first: int, last: int, step: int)

  function Named(s: string, names: map<string, int>): Option<int> {
    if Upper(s) in names then Some(names[Upper(s)]) else None
  }

  function LinearValue(s: string, minimum: int, maximum: int, names: map<string, int>): Option<int> {
    if Named(s, names).Some? then Named(s, names)
    else
      var parsed := ParseUnsigned(s);
      if parsed.Some? && minimum <= parsed.value <= maximum then Some(parsed.value) else None
  }

  /** The step after the slash of a member; a missing step is one. */
  function StepOf(parts: Pieces): Option<nat> {
    if parts.Last? then Some(1)
    else if parts.rest.Last? then
      var step := ParseUnsigned(parts.rest.piece);
      if step.Some? && step.value > 0 then step else None
    else None
  }

  /** What the base of a member selects before its step is applied. */
  function RangeOf(base: string, stepped: bool, minimum: int, maximum: int, names: map<string, int>): Option<(int, int)> {
    var ends := Split(base, '-');
    if base == "*" then Some((minimum, maximum))
    else if ends.Last? then
      var v := LinearValue(base, minimum, maximum, names);
      if !stepped && v.Some? then Some((v.value, v.value)) else None
    else if ends.rest.Last? then
      var first := LinearValue(ends.piece, minimum, maximum, names);
      var last := LinearValue(ends.rest.piece, minimum, maximum, names);
      if first.Some? && last.Some? && first.value <= last.value then Some((first.value, last.value)) else None
    else None
  }

  function LinearMember(member: string, minimum: int, maximum: int, names: map<string, int>): Option<Steps> {
    var parts := Split(member, '/');
    var base, step := parts.piece, StepOf(parts);
    var range := RangeOf(base, parts.Piece?, minimum, maximum, names);
    if base == [] || step.None? || range.None? then None else Some(Steps(range.value.0, range.value.1, step.value))
  }

  /** Is `v` one of the values of the progression below `end`? */
  predicate OnStep(s: Steps, v: int)
    requires s.step > 0
  {
    s.first <= v <= s.last && (v - s.first) % s.step == 0
  }

  /** Does bit `b` of a field that starts at `minimum` stand for a value of the progression? */
  predicate OnStepBit(s: Steps, minimum: int, b: int)
    requires s.step > 0
  {
    OnStep(s, b + minimum)
  }

  /** The bits a progression sets. */
  function StepBits(s: Steps, minimum: int): set<int>
    requires s.step > 0
  {
    set b | s.first - minimum <= b <= s.last - minimum && OnStepBit(s, minimum, b)
  }

  /** What one member selects, and which numeric spellings of Sunday it used. */
  datatype Bits = Bits(bits: set<int>, zero: bool, seven: bool)

  function MemberBits(member: string, minimum: int, maximum: int, names: map<string, int>): Option<Bits> {
    var s := LinearMember(member, minimum, maximum, names);
    if member != [] && s.Some? && s.value.step > 0 then Some(Bits(StepBits(s.value, minimum), false, false)) else None
  }

  // ---------- Weekdays ----------

  /** A weekday value, with the numeric spelling of Sunday it used. */
  datatype WeekdayValue = WeekdayValue(value: int, zero: bool, seven: bool)

  function WeekdayOf(s: string): Option<WeekdayValue> {
    if Named(s, WEEKDAY_NAMES).Some? then Some(WeekdayValue(Named(s, WEEKDAY_NAMES).value, false, false))
    else
      var parsed := ParseUnsigned(s);
      if parsed.None? || parsed.value > 7 then None
      else Some(WeekdayValue(if parsed.value == 7 then 0 else parsed.value, parsed.value == 0, parsed.value == 7))
  }

  /** Days from `first` forward to `last`, every `step`-th of them, wrapping past Saturday. */
  function CyclicBits(first: int, last: int, step: int): set<int>
    requires step > 0
  {
    set k | 0 <= k < Span(first, last) + 1 && CyclicDay(first, step, k) :: DayAfter(first, k)
  }

  const ALL_DAYS: set<int> := set d | 0 <= d < 7

  function WeekdayMember(member: string): Option<Bits> {
    var parts := Split(member, '/');
    var base, step := parts.piece, StepOf(parts);
    if base == [] || step.None? then None
    else if base == "*" then (if parts.Last? then Some(Bits(ALL_DAYS, false, false)) else None)
    else
      var ends := Split(base, '-');
      if ends.Last? then
        var v := WeekdayOf(base);
        if parts.Last? && v.Some? then Some(Bits({v.value.value}, v.value.zero, v.value.seven)) else None
      else if ends.rest.Last? then
        var first, last := WeekdayOf(ends.piece), WeekdayOf(ends.rest.piece);
        if first.Some? && last.Some? && step.value > 0 then
          Some(Bits(CyclicBits(first.value.value, last.value.value, step.value),
                    first.value.zero || last.value.zero, first.value.seven || last.value.seven))
        else None
      else None
  }

  // ---------- Fields ----------

  /** The two member grammars: linear fields with their value range and names, and the cyclic weekday field. */
  datatype Grammar = Linear(minimum: int, maximum: int, names: map<string, int>) | Weekdays

  /** What one member selects under a grammar, if it is valid at all. */
  function Selects(g: Grammar, member: string): Option<Bits> {
    if g.Linear? then MemberBits(member, g.minimum, g.maximum, g.names) else WeekdayMember(member)
  }

  function Added(seen: Bits, member: Option<Bits>): Option<Bits> {
    if member.Some? then Some(Both(seen, member.value)) else None
  }

  function Both(u: Bits, v: Bits): Bits {
    Bits(u.bits + v.bits, u.zero || v.zero, u.seven || v.seven)
  }

  /** What the members pick on top of `seen`, unless one of them is invalid. */
  function Together(pick: string -> Option<Bits>, members: Pieces, seen: Bits): Option<Bits>
    decreases members
  {
    var first := Added(seen, pick(members.piece));
    if first.None? || members.Last? then first else Together(pick, members.rest, first.value)
  }

  const NOTHING := Bits({}, false, false)

  /**
   A field selects what any of its members selects. It is valid only if all of
   them are, and if Sunday is not spelled both as 0 and as 7.
   */
  function FieldBits(g: Grammar, field: string): Option<set<int>> {
    var all := Together(member => Selects(g, member), Split(field, ','), NOTHING);
    if all.Some? && !(all.value.zero && all.value.seven) then Some(all.value.bits) else None
  }

  // ---------- The whole expression ----------

  function Trim(s: string): (t: string)
    decreases |s|
  {
    if s != [] && IsSeparator(s[0]) then Trim(s[1..])
    else if s != [] && IsSeparator(s[|s| - 1]) then Trim(s[..|s| - 1])
    else s
  }

  function Expand(s: string): string {
    if s == "@hourly" then "0 * * * *"
    else if s == "@daily" then "0 0 * * *"
    else if s == "@weekly" then "0 0 * * SUN"
    else s
  }

  /** The maximal runs of characters that are not separators. */
  function Words(s: string): seq<string>
    decreases |s|
  {
    if s == [] then []
    else if IsSeparator(s[0]) then Words(s[1..])
    else
      var n := WordEnd(s, 0);
      [s[..n]] + Words(s[n..])
  }

  function WordEnd(s: string, from: nat): (n: nat)
    requires from <= |s|
    ensures from <= n <= |s|
    ensures from < |s| && !IsSeparator(s[from]) ==> n > from
    ensures forall i :: from <= i < n ==> !IsSeparator(s[i])
    ensures n < |s| ==> IsSeparator(s[n])
    decreases |s| - from
  {
    if from == |s| || IsSeparator(s[from]) then from else WordEnd(s, from + 1)
  }

  const MINUTES := Linear(0, 59, map[])
  const HOURS := Linear(0, 23, map[])
  const DAYS := Linear(1, 31, map[])
  const MONTHS := Linear(1, 12, MONTH_NAMES)

  /** The expression a text denotes. */
  function Denotes(text: string): Option<CronExpression> {
    if |text| > MAXIMUM_EXPRESSION_BYTES || '\0' in text then None
    else
      var fields := Words(Expand(Trim(text)));
      if |fields| == 5 then FromFields(fields) else None
  }

  function FromFields(fields: seq<string>): Option<CronExpression>
    requires |fields| == 5
  {
    var minutes := FieldBits(MINUTES, fields[0]);
    var hours := FieldBits(HOURS, fields[1]);
    var days := FieldBits(DAYS, fields[2]);
    var months := FieldBits(MONTHS, fields[3]);
    var weekdays := FieldBits(Weekdays, fields[4]);
    if minutes.Some? && hours.Some? && days.Some? && months.Some? && weekdays.Some?
    then Some(CronExpression(minutes.value, hours.value, days.value, months.value, weekdays.value)) else None
  }

  // ---------- The parser ----------

  /** The stepping loop of a progression, which must not overrun the last value. */
  method SetSteps(s: Steps, minimum: int, bits: set<int>) returns (r: set<int>)
    requires s.step > 0 && s.first <= s.last
    ensures r == bits + StepBits(s, minimum)
  {
    r := bits;
    var value := s.first;
    ghost var k := 0;
    while true
      invariant s.first <= value <= s.last && value == s.first + k * s.step && k >= 0
      invariant r == bits + StepsBelow(s, minimum, value)
      decreases s.last - value
    {
      OneStep(s, minimum, value, k);
      r := r + {value - minimum};
      if s.step > s.last - value {
        break;
      }
      value := value + s.step;
      k := k + 1;
    }
  }

  ghost function StepsBelow(s: Steps, minimum: int, end: int): set<int>
    requires s.step > 0
  {
    set b | s.first - minimum <= b < end - minimum && OnStepBit(s, minimum, b)
  }

  /** Between a value of the progression and the next there is no other. */
  lemma OneStep(s: Steps, minimum: int, value: int, k: int)
    requires s.step > 0 && s.first <= value <= s.last && k >= 0 && value == s.first + k * s.step
    ensures StepsBelow(s, minimum, value + s.step) == StepsBelow(s, minimum, value) + {value - minimum}
    ensures s.step > s.last - value ==> StepBits(s, minimum) == StepsBelow(s, minimum, value + s.step)
  {
    ModOf(k, s.step, 0);
    forall b | value - minimum < b < value + s.step - minimum
      ensures !OnStepBit(s, minimum, b)
    {
      ModOf(k, s.step, b + minimum - value);
      assert b + minimum - s.first == k * s.step + (b + minimum - value);
    }
  }

  lemma ModOf(k: int, step: int, r: int)
    requires step > 0 && 0 <= r < step
    ensures (k * step + r) % step == r
  {
    var n := k * step + r;
    var e := n / step - k;
    assert e * step == r - n % step;
    assert e > 0 ==> e * step >= step;
    assert e < 0 ==> e * step <= -step;
  }

  /** What comes before the only slash of a member, and the step after it; a missing step is one. */
  method ScanStep(member: string) returns (base: string, stepped: bool, step: Option<nat>)
    ensures var parts := Split(member, '/');
            base == parts.piece && step == StepOf(parts) && stepped == parts.Piece?
  {
    var once, slash := CutOnce(member, '/');
    base, stepped, step := member[..slash], slash < |member|, Some(1);
    if !once {
      step := None;
    } else if stepped {
      step := ParseUnsigned(member[slash + 1..]);
      if step == Some(0) {
        step := None;
      }
    }
  }

  /** The first and last value of the base of a member. */
  method ScanRange(base: string, stepped: bool, minimum: int, maximum: int, names: map<string, int>)
    returns (found: bool, first: int, last: int)
    ensures RangeOf(base, stepped, minimum, maximum, names) == if found then Some((first, last)) else None
  {
    if base == "*" {
      return true, minimum, maximum;
    }
    var once, dash := CutOnce(base, '-');
    if dash == |base| {
      var v := LinearValue(base, minimum, maximum, names);
      if stepped || v.None? {
        return false, 0, 0;
      }
      return true, v.value, v.value;
    }
    if !once {
      return false, 0, 0;
    }
    var low := LinearValue(base[..dash], minimum, maximum, names);
    var high := LinearValue(base[dash + 1..], minimum, maximum, names);
    if low.None? || high.None? || low.value > high.value {
      return false, 0, 0;
    }
    return true, low.value, high.value;
  }

  /** parse_linear_member(): the bits of one valid member on top of those already set. */
  method ParseLinearMember(member: string, minimum: int, maximum: int, names: map<string, int>, seen: Bits)
    returns (r: Option<Bits>)
    requires minimum <= maximum
    ensures r == Added(seen, MemberBits(member, minimum, maximum, names))
  {
    var base, stepped, step := ScanStep(member);
    if base == [] || step.None? {
      return None;
    }
    var found, first, last := ScanRange(base, stepped, minimum, maximum, names);
    if !found {
      return None;
    }
    var s := Steps(first, last, step.value);
    assert LinearMember(member, minimum, maximum, names) == Some(s);
    MemberSteps(member, minimum, maximum, names);
    var bits := SetSteps(s, minimum, seen.bits);
    return Some(seen.(bits := bits));
  }

  /** One member of either grammar, on top of those already read. */
  method ParseMember(g: Grammar, member: string, seen: Bits) returns (r: Option<Bits>)
    requires g.Linear? ==> g.minimum <= g.maximum
    ensures r == Added(seen, Selects(g, member))
  {
    if g.Linear? {
      r := ParseLinearMember(member, g.minimum, g.maximum, g.names, seen);
    } else {
      r := ParseWeekdayMember(member, seen);
    }
  }

  /** `pick` is the grammar's selection. */
  ghost predicate Agrees(g: Grammar, pick: string -> Option<Bits>) {
    forall member {:trigger Selects(g, member)} :: pick(member) == Selects(g, member)
  }

  method ParsePicked(g: Grammar, ghost pick: string -> Option<Bits>, member: string, seen: Bits) returns (r: Option<Bits>)
    requires (g.Linear? ==> g.minimum <= g.maximum) && Agrees(g, pick)
    ensures r == Added(seen, pick(member))
  {
    r := ParseMember(g, member, seen);
  }

  /** The field loops: member by member, up to the first that is invalid. */
  method ParseMembers(g: Grammar, ghost pick: string -> Option<Bits>, field: string) returns (r: Option<Bits>)
    requires (g.Linear? ==> g.minimum <= g.maximum) && Agrees(g, pick)
    ensures r == Together(pick, Split(field, ','), NOTHING)
  {
    var seen := NOTHING;
    var begin := 0;
    while true
      invariant 0 <= begin <= |field|
      invariant Together(pick, Split(field, ','), NOTHING) == Together(pick, SplitFrom(field, ',', begin), seen)
      decreases |field| - begin
    {
      var comma := IndexOf(field, ',', begin);
      var next := ParsePicked(g, pick, field[begin..comma], seen);
      if next.None? || comma == |field| {
        return next;
      }
      seen, begin := next.value, comma + 1;
    }
  }

  method ParseField(g: Grammar, field: string) returns (r: Option<set<int>>)
    requires g.Linear? ==> g.minimum <= g.maximum
    ensures r == FieldBits(g, field)
  {
    var seen := ParseMembers(g, member => Selects(g, member), field);
    if seen.None? || (seen.value.zero && seen.value.seven) {
      return None;
    }
    return Some(seen.value.bits);
  }

  /** A valid member is a progression with something in it. */
  lemma MemberSteps(member: string, minimum: int, maximum: int, names: map<string, int>)
    requires minimum <= maximum && LinearMember(member, minimum, maximum, names).Some?
    ensures var s := LinearMember(member, minimum, maximum, names).value; s.step > 0 && s.first <= s.last
  {
  }

  /** The days of a cyclic range, walked forward from its first day. */
  method SetCyclic(first: int, last: int, step: int, bits: set<int>) returns (r: set<int>)
    requires 0 <= first < 7 && 0 <= last < 7 && step > 0
    ensures r == bits + CyclicBits(first, last, step)
  {
    r := bits;
    var value := first;
    var offset := 0;
    ghost var span := Span(first, last);
    while value != last
      invariant 0 <= offset <= span && value == DayAfter(first, offset)
      invariant r == bits + CyclicBelow(first, step, offset)
      decreases span - offset
    {
      CyclicStep(first, step, offset);
      DayStep(first, last, offset);
      if CyclicDay(first, step, offset) {
        r := r + {value};
      }
      value := (value + 1) % 7;
      offset := offset + 1;
    }
    CyclicStep(first, step, offset);
    DayStep(first, last, offset);
    if CyclicDay(first, step, offset) {
      r := r + {value};
    }
  }

  /** How many days after `first` the next `last` is. */
  function Span(first: int, last: int): int {
    (last - first) % 7
  }

  function DayAfter(first: int, k: int): int {
    (first + k) % 7
  }

  lemma DayStep(first: int, last: int, k: int)
    requires 0 <= first < 7 && 0 <= last < 7 && 0 <= k <= Span(first, last)
    ensures DayAfter(first, k) == last <==> k == Span(first, last)
    ensures DayAfter(first, k + 1) == (DayAfter(first, k) + 1) % 7
    ensures DayAfter(first, 0) == first
  {
  }

  predicate CyclicDay(first: int, step: int, k: int)
    requires step > 0
  {
    k % step == 0
  }

  ghost function CyclicBelow(first: int, step: int, n: int): set<int>
    requires step > 0
  {
    set k | 0 <= k < n && CyclicDay(first, step, k) :: DayAfter(first, k)
  }

  lemma CyclicStep(first: int, step: int, n: int)
    requires step > 0 && n >= 0
    ensures CyclicBelow(first, step, n + 1) ==
            CyclicBelow(first, step, n) + if CyclicDay(first, step, n) then {DayAfter(first, n)} else {}
  {
  }

  /** A stepped or plain range of weekdays, on top of those already set. */
  method ParseWeekdayRange(base: string, dash: nat, step: nat, seen: Bits) returns (r: Option<Bits>)
    requires step > 0 && dash < |base|
    ensures var first, last := WeekdayOf(base[..dash]), WeekdayOf(base[dash + 1..]);
            r == Added(seen,
                       if first.None? || last.None? then None
                       else Some(Bits(CyclicBits(first.value.value, last.value.value, step),
                                      first.value.zero || last.value.zero, first.value.seven || last.value.seven)))
  {
    var first, last := WeekdayOf(base[..dash]), WeekdayOf(base[dash + 1..]);
    if first.None? || last.None? {
      return None;
    }
    var bits := SetCyclic(first.value.value, last.value.value, step, seen.bits);
    return Some(Bits(bits, seen.zero || (first.value.zero || last.value.zero),
                     seen.seven || (first.value.seven || last.value.seven)));
  }

  /** parse_weekday_member(): likewise, with the numeric spellings of Sunday remembered. */
  method ParseWeekdayMember(member: string, seen: Bits) returns (r: Option<Bits>)
    ensures r == Added(seen, WeekdayMember(member))
  {
    var base, stepped, step := ScanStep(member);
    if base == [] || step.None? {
      return None;
    }
    if base == "*" {
      return if stepped then None else Some(seen.(bits := seen.bits + ALL_DAYS));
    }
    var once, dash := CutOnce(base, '-');
    if dash == |base| {
      var v := WeekdayOf(base);
      return if !stepped && v.Some?
             then Some(Bits(seen.bits + {v.value.value}, seen.zero || v.value.zero, seen.seven || v.value.seven))
             else None;
    }
    if !once {
      return None;
    }
    r := ParseWeekdayRange(base, dash, step.value, seen);
  }

  /** trim_field_separators(): leading ones first, then trailing ones. */
  method TrimSeparators(text: string) returns (r: string)
    ensures r == Trim(text)
  {
    r := text;
    while r != [] && IsSeparator(r[0])
      invariant Trim(r) == Trim(text)
    {
      r := r[1..];
    }
    while r != [] && IsSeparator(r[|r| - 1])
      invariant Trim(r) == Trim(text)
      invariant r != [] ==> !IsSeparator(r[0])
    {
      r := r[..|r| - 1];
    }
  }

  /** split_fields(): exactly five words, or nothing. */
  method SplitFields(text: string) returns (r: Option<seq<string>>)
    ensures r == if |Words(text)| == 5 then Some(Words(text)) else None
  {
    var fields: seq<string> := [];
    var position := 0;
    assert text[position..] == text;
    while position < |text|
      invariant 0 <= position <= |text| && |fields| <= 5
      invariant Words(text) == fields + Words(text[position..])
    {
      NextWord(text, position);
      if IsSeparator(text[position]) {
        position := position + 1;
      } else {
        var end := WordEnd(text, position);
        if |fields| == 5 {
          return None;
        }
        fields := fields + [text[position..end]];
        position := end;
      }
    }
    assert text[position..] == [] && fields + [] == fields;
    return if |fields| == 5 then Some(fields) else None;
  }

  /** A separator is skipped; a word goes up to its end. */
  lemma NextWord(text: string, position: nat)
    requires position < |text|
    ensures IsSeparator(text[position]) ==> Words(text[position..]) == Words(text[position + 1..])
    ensures !IsSeparator(text[position]) ==>
              var end := WordEnd(text, position);
              position < end && Words(text[position..]) == [text[position..end]] + Words(text[end..])
  {
    var rest := text[position..];
    assert rest[1..] == text[position + 1..];
    if !IsSeparator(text[position]) {
      var end := WordEnd(text, position);
      WordShift(text, position, 0);
      assert rest[..end - position] == text[position..end];
      assert rest[end - position..] == text[end..];
    }
  }

  lemma {:induction false} WordShift(s: string, from: nat, k: nat)
    requires from + k <= |s|
    ensures WordEnd(s[from..], k) == WordEnd(s, from + k) - from
    decreases |s| - from - k
  {
    if from + k < |s| && !IsSeparator(s[from + k]) {
      WordShift(s, from, k + 1);
    }
  }

  /** parse_cron_expression(): exactly the denoted expression, which is never empty in any field. */
  method ParseCronExpression(text: string) returns (r: Result<CronExpression, CronError>)
    ensures r == match Denotes(text) case Some(e) => Ok(e) case None => Err(InvalidExpression)
    ensures r.Ok? ==> NonEmpty(r.value) && InRange(r.value)
  {
    if |text| > MAXIMUM_EXPRESSION_BYTES || '\0' in text {
      return Err(InvalidExpression);
    }
    var trimmed := TrimSeparators(text);
    var fields := SplitFields(Expand(trimmed));
    if fields.None? {
      return Err(InvalidExpression);
    }
    var parsed := ParseFields(fields.value);
    if parsed.None? {
      return Err(InvalidExpression);
    }
    FieldsSelect(fields.value);
    return Ok(parsed.value);
  }

  method ParseFields(fields: seq<string>) returns (r: Option<CronExpression>)
    requires |fields| == 5
    ensures r == FromFields(fields)
  {
    var minutes := ParseField(MINUTES, fields[0]);
    var hours := ParseField(HOURS, fields[1]);
    var days := ParseField(DAYS, fields[2]);
    var months := ParseField(MONTHS, fields[3]);
    var weekdays := ParseField(Weekdays, fields[4]);
    if minutes.None? || hours.None? || days.None? || months.None? || weekdays.None? {
      return None;
    }
    return Some(CronExpression(minutes.value, hours.value, days.value, months.value, weekdays.value));
  }

  // ---------- A valid field always selects something in range ----------

  /** The number of bits a field has. */
  function Width(g: Grammar): int {
    if g.Linear? then g.maximum - g.minimum + 1 else 7
  }

  ghost predicate Sound(g: Grammar) {
    g.Linear? ==> g.minimum <= g.maximum && forall n :: n in g.names ==> g.minimum <= g.names[n] <= g.maximum
  }

  ghost predicate SelectsSome(bits: set<int>, width: int) {
    (exists b :: b in bits) && forall b :: b in bits ==> 0 <= b < width
  }

  lemma LinearSelects(member: string, minimum: int, maximum: int, names: map<string, int>)
    requires Sound(Linear(minimum, maximum, names)) && MemberBits(member, minimum, maximum, names).Some?
    ensures SelectsSome(MemberBits(member, minimum, maximum, names).value.bits, maximum - minimum + 1)
  {
    var s := LinearMember(member, minimum, maximum, names).value;
    assert minimum <= s.first <= s.last <= maximum;
    assert OnStepBit(s, minimum, s.first - minimum);
    assert s.first - minimum in StepBits(s, minimum);
  }

  lemma WeekdaySelects(member: string)
    requires WeekdayMember(member).Some?
    ensures SelectsSome(WeekdayMember(member).value.bits, 7)
  {
    assert 0 in ALL_DAYS;
    var bits := WeekdayMember(member).value.bits;
    var parts := Split(member, '/');
    if parts.piece != "*" {
      var ends := Split(parts.piece, '-');
      if ends.Last? {
        assert WeekdayOf(parts.piece).value.value in bits;
      } else {
        var first, last := WeekdayOf(ends.piece).value.value, WeekdayOf(ends.rest.piece).value.value;
        CyclicSelects(first, last, StepOf(parts).value);
      }
    }
  }

  lemma CyclicSelects(first: int, last: int, step: int)
    requires 0 <= first < 7 && step > 0
    ensures SelectsSome(CyclicBits(first, last, step), 7)
  {
    assert CyclicDay(first, step, 0);
    assert DayAfter(first, 0) in CyclicBits(first, last, step);
  }

  lemma MemberSelects(g: Grammar, member: string)
    requires Sound(g) && Selects(g, member).Some?
    ensures SelectsSome(Selects(g, member).value.bits, Width(g))
  {
    if g.Linear? {
      LinearSelects(member, g.minimum, g.maximum, g.names);
    } else {
      WeekdaySelects(member);
    }
  }

  /** Bit `b` is picked by one of the members. */
  ghost predicate Picked(pick: string -> Option<Bits>, members: Pieces, b: int) {
    || (pick(members.piece).Some? && b in pick(members.piece).value.bits)
    || (members.Piece? && Picked(pick, members.rest, b))
  }

  ghost predicate AllValid(pick: string -> Option<Bits>, members: Pieces) {
    pick(members.piece).Some? && (members.Piece? ==> AllValid(pick, members.rest))
  }

  /** The members are valid together exactly when each one is, and then add exactly the bits that some member sets. */
  lemma {:induction false} TogetherIsUnion(pick: string -> Option<Bits>, members: Pieces, seen: Bits, b: int)
    ensures Together(pick, members, seen).Some? <==> AllValid(pick, members)
    ensures Together(pick, members, seen).Some? ==>
              (b in Together(pick, members, seen).value.bits <==> b in seen.bits || Picked(pick, members, b))
    decreases members
  {
    var first := Added(seen, pick(members.piece));
    if first.Some? && members.Piece? {
      TogetherIsUnion(pick, members.rest, first.value, b);
    }
  }

  lemma {:induction false} PickedInRange(pick: string -> Option<Bits>, members: Pieces, width: int, b: int)
    requires forall member :: pick(member).Some? ==> SelectsSome(pick(member).value.bits, width)
    requires Picked(pick, members, b)
    ensures 0 <= b < width
    decreases members
  {
    if !(pick(members.piece).Some? && b in pick(members.piece).value.bits) {
      PickedInRange(pick, members.rest, width, b);
    }
  }

  lemma UnionSelects(pick: string -> Option<Bits>, members: Pieces, width: int)
    requires forall member :: pick(member).Some? ==> SelectsSome(pick(member).value.bits, width)
    requires Together(pick, members, NOTHING).Some?
    ensures AllValid(pick, members) && SelectsSome(Together(pick, members, NOTHING).value.bits, width)
    ensures forall b :: b in Together(pick, members, NOTHING).value.bits <==> Picked(pick, members, b)
  {
    var bits := Together(pick, members, NOTHING).value.bits;
    TogetherIsUnion(pick, members, NOTHING, 0);
    forall b ensures b in bits <==> Picked(pick, members, b) {
      TogetherIsUnion(pick, members, NOTHING, b);
    }
    var b :| b in pick(members.piece).value.bits;
    assert Picked(pick, members, b);
    forall b | b in bits ensures 0 <= b < width {
      PickedInRange(pick, members, width, b);
    }
  }

  /** A valid field has valid members only, selects exactly what they select, and that is something in range. */
  lemma FieldSelects(g: Grammar, field: string)
    requires Sound(g) && FieldBits(g, field).Some?
    ensures var pick := member => Selects(g, member);
            && AllValid(pick, Split(field, ','))
            && forall b :: b in FieldBits(g, field).value <==> Picked(pick, Split(field, ','), b)
    ensures SelectsSome(FieldBits(g, field).value, Width(g))
  {
    var pick := member => Selects(g, member);
    forall member | pick(member).Some? ensures SelectsSome(pick(member).value.bits, Width(g)) {
      MemberSelects(g, member);
    }
    UnionSelects(pick, Split(field, ','), Width(g));
  }

  lemma FieldsSelect(fields: seq<string>)
    requires |fields| == 5 && FromFields(fields).Some?
    ensures NonEmpty(FromFields(fields).value) && InRange(FromFields(fields).value)
  {
    FieldSelects(MINUTES, fields[0]);
    FieldSelects(HOURS, fields[1]);
    FieldSelects(DAYS, fields[2]);
    MonthsSound();
    FieldSelects(MONTHS, fields[3]);
    FieldSelects(Weekdays, fields[4]);
  }

  lemma MonthsSound()
    ensures Sound(MONTHS)
  {
  }

  /** For text that parses, the search fails exactly when no selected date exists in any year. */
  method NextOccurrenceOf(text: string, bound: int) returns (r: Result<int, CronError>)
    ensures r == Err(InvalidExpression) <==> Denotes(text).None?
    ensures r.Ok? ==> Denotes(text).Some? && LeastAfter(Denotes(text).value, bound, r.value)
    ensures Denotes(text).Some? && WindowInRange(bound) ==>
              (r == Err(NoFutureOccurrence) <==> !Possible(Denotes(text).value))
  {
    var parsed := ParseCronExpression(text);
    if parsed.Err? {
      return Err(parsed.error);
    }
    r := NextLocalOccurrence(parsed.value, bound);
  }
}
