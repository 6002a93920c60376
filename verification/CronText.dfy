/**
 Cron expressions from the side of whoever writes them: numbers in decimal,
 names in any case, ranges, steps and blanks, each spelled out and read back.
 */
module CronText {
  import opened Wrappers
  import opened CronSearch
  import opened CronParser

  // ---------- Values ----------

  /** A number in decimal, with no leading zeros. */
  function Digits(n: nat): string {
    if n < 10 then [Digit(n)] else Digits(n / 10) + [Digit(n % 10)]
  }

  function Digit(n: nat): char
    requires n < 10
  {
    "0123456789"[n]
  }

  lemma {:induction false} DigitsRead(n: nat)
    ensures Digits(n) != [] && (forall i :: 0 <= i < |Digits(n)| ==> IsDigit(Digits(n)[i]))
    ensures Decimal(Digits(n)) == n
  {
    if n >= 10 {
      DigitsRead(n / 10);
      assert Digits(n)[..|Digits(n)| - 1] == Digits(n / 10);
    } else {
      assert Digits(n)[..0] == [];
    }
  }

  /** Every number an unsigned 32-bit integer holds is read back; a larger one and the empty text are refused. */
  lemma NumbersRead(n: nat)
    ensures ParseUnsigned(Digits(n)) == if n <= 0xFFFF_FFFF then Some(n) else None
    ensures ParseUnsigned("") == None
  {
    DigitsRead(n);
  }

  /** Anything that is not a digit makes the whole number invalid. */
  lemma OnlyDigitsRead(s: string, i: nat)
    requires i < |s| && forall d :: 0 <= d < 10 ==> s[i] != Digit(d)
    ensures ParseUnsigned(s) == None
  {
    assert IsDigit(s[i]) ==> s[i] == Digit((s[i] as int - '0' as int) % 10);
  }

  /** A value as written: a number, or the name of a month or a weekday. */
  datatype Value = Number(n: nat) | Name(text: string)

  function Spell(v: Value): string {
    match v
    case Number(n) => Digits(n)
    case Name(text) => text
  }

  /** Letters alone, in either case. */
  predicate Letters(s: string) {
    s != [] && forall c :: c in s ==> 'a' <= c <= 'z' || 'A' <= c <= 'Z'
  }

  /** Two letters that differ at most in their case. */
  predicate SameLetter(c: char, d: char) {
    c == d || ('a' <= c <= 'z' && c as int - 'a' as int == d as int - 'A' as int)
  }

  /** A name is found by its letters, whichever case they are written in. */
  lemma CaseIsIgnored(text: string, name: string, names: map<string, int>)
    requires name in names && |text| == |name| && forall i :: 0 <= i < |text| ==> SameLetter(text[i], name[i])
    requires forall i :: 0 <= i < |name| ==> 'A' <= name[i] <= 'Z'
    ensures Named(text, names) == Some(names[name])
  {
    assert Upper(text) == name;
  }

  /** The names a field knows begin with a capital. */
  predicate Capitals(names: map<string, int>) {
    forall name :: name in names ==> name != [] && 'A' <= name[0] <= 'Z'
  }

  lemma NamesAreCapitals()
    ensures Capitals(map[]) && Capitals(MONTH_NAMES) && Capitals(WEEKDAY_NAMES)
  {
  }

  lemma NumbersAreNoNames(n: nat, names: map<string, int>)
    requires Capitals(names)
    ensures Named(Digits(n), names) == None
  {
    DigitsRead(n);
    assert IsDigit(Digits(n)[0]);
    assert Upper(Digits(n))[0] == Digits(n)[0];
  }

  /** What a value stands for in a field from `minimum` to `maximum`. */
  function Stands(v: Value, minimum: int, maximum: int, names: map<string, int>): Option<int> {
    match v
    case Number(n) => if minimum <= n <= maximum then Some(n) else None
    case Name(text) => Named(text, names)
  }

  lemma LinearValueRead(v: Value, minimum: int, maximum: int, names: map<string, int>)
    requires Capitals(names) && maximum <= 0xFFFF_FFFF && (v.Name? ==> Letters(v.text))
    ensures LinearValue(Spell(v), minimum, maximum, names) == Stands(v, minimum, maximum, names)
  {
    if v.Number? {
      NumbersRead(v.n);
      NumbersAreNoNames(v.n, names);
    } else {
      assert !IsDigit(v.text[0]) by {
        assert v.text[0] in v.text;
      }
    }
  }

  /** Weekday numbers run from 0 to 7, both ends are Sunday, and only numbers commit a field to one of them. */
  lemma WeekdayRead(v: Value)
    requires v.Name? ==> Letters(v.text)
    ensures v.Number? ==> WeekdayOf(Spell(v)) == if v.n <= 7 then Some(WeekdayValue(v.n % 7, v.n == 0, v.n == 7)) else None
    ensures v.Name? ==> WeekdayOf(v.text) ==
                        match Named(v.text, WEEKDAY_NAMES)
                        case Some(d) => Some(WeekdayValue(d, false, false))
                        case None => None
  {
    NamesAreCapitals();
    if v.Number? {
      NumbersRead(v.n);
      NumbersAreNoNames(v.n, WEEKDAY_NAMES);
    } else {
      assert !IsDigit(v.text[0]) by {
        assert v.text[0] in v.text;
      }
    }
  }

  // ---------- Members ----------

  /** What is written before the slash of a member. */
  datatype Range = All | Only(value: Value) | From(first: Value, last: Value)

  function SpellRange(r: Range): string {
    match r
    case All => "*"
    case Only(v) => Spell(v)
    case From(first, last) => Spell(first) + "-" + Spell(last)
  }

  function SpellMember(r: Range, step: Option<nat>): string {
    if step.Some? then SpellRange(r) + "/" + Digits(step.value) else SpellRange(r)
  }

  predicate Lettered(r: Range) {
    match r
    case All => true
    case Only(v) => v.Name? ==> Letters(v.text)
    case From(first, last) => (first.Name? ==> Letters(first.text)) && (last.Name? ==> Letters(last.text))
  }

  lemma {:induction false} FirstIndex(s: string, c: char, from: nat, k: nat)
    requires from <= k <= |s| && c !in s[from..k] && (k < |s| ==> s[k] == c)
    ensures IndexOf(s, c, from) == k
    decreases k - from
  {
    if from < k {
      assert s[from] in s[from..k];
      assert forall d :: d in s[from + 1..k] ==> d in s[from..k];
      FirstIndex(s, c, from + 1, k);
    }
  }

  lemma {:induction false} SplitShifts(x: string, y: string, c: char, from: nat)
    requires |x| <= from <= |x| + |y|
    ensures SplitFrom(x + y, c, from) == SplitFrom(y, c, from - |x|)
    decreases |x| + |y| - from
  {
    var k := IndexOf(y, c, from - |x|);
    assert (x + y)[from..|x| + k] == y[from - |x|..k];
    FirstIndex(x + y, c, from, |x| + k);
    if k < |y| {
      SplitShifts(x, y, c, |x| + k + 1);
    }
  }

  /** A text up to its first separator is one piece; what follows is split on its own. */
  lemma SplitAtFirst(x: string, c: char, y: string)
    requires c !in x
    ensures Split(x, c) == Last(x)
    ensures Split(x + [c] + y, c) == Piece(x, Split(y, c))
  {
    FirstIndex(x, c, 0, |x|);
    var s := x + [c] + y;
    assert s[0..|x|] == x;
    FirstIndex(s, c, 0, |x|);
    SplitShifts(x + [c], y, c, |x| + 1);
  }

  /** A value holds none of the marks that structure a field. */
  lemma ValuesArePlain(v: Value, c: char)
    requires c in "*-/, \t" && (v.Name? ==> Letters(v.text))
    ensures c !in Spell(v) && Spell(v) != []
  {
    if v.Number? {
      DigitsRead(v.n);
    }
  }

  lemma RangesArePlain(r: Range)
    requires Lettered(r)
    ensures '/' !in SpellRange(r) && SpellRange(r) != []
    ensures !r.All? ==> SpellRange(r) != "*"
  {
    match r
    case All =>
    case Only(v) =>
      ValuesArePlain(v, '/');
      ValuesArePlain(v, '*');
      assert '*' in "*";
    case From(first, last) =>
      ValuesArePlain(first, '/');
      ValuesArePlain(last, '/');
  }

  /** The step a member asks for: one unless it says otherwise, and never zero. */
  function StepRead(step: Option<nat>): Option<nat> {
    match step
    case None => Some(1)
    case Some(n) => if 1 <= n <= 0xFFFF_FFFF then Some(n) else None
  }

  lemma MemberSplits(r: Range, step: Option<nat>)
    requires Lettered(r)
    ensures var parts := Split(SpellMember(r, step), '/');
            parts.piece == SpellRange(r) && parts.Piece? == step.Some? && StepOf(parts) == StepRead(step)
  {
    RangesArePlain(r);
    if step.Some? {
      var digits := Digits(step.value);
      ValuesArePlain(Number(step.value), '/');
      SplitAtFirst(SpellRange(r), '/', digits);
      SplitAtFirst(digits, '/', "");
      NumbersRead(step.value);
    } else {
      SplitAtFirst(SpellRange(r), '/', "");
    }
  }

  lemma RangeSplits(r: Range)
    requires Lettered(r) && !r.All?
    ensures Split(SpellRange(r), '-') ==
            if r.Only? then Last(Spell(r.value)) else Piece(Spell(r.first), Last(Spell(r.last)))
  {
    if r.Only? {
      ValuesArePlain(r.value, '-');
      SplitAtFirst(Spell(r.value), '-', "");
    } else {
      ValuesArePlain(r.first, '-');
      ValuesArePlain(r.last, '-');
      SplitAtFirst(Spell(r.first), '-', Spell(r.last));
      SplitAtFirst(Spell(r.last), '-', "");
    }
  }

  /** The ends of a written range: a single value takes no step, and a range must not run backwards. */
  function Ends(r: Range, stepped: bool, minimum: int, maximum: int, names: map<string, int>): Option<(int, int)> {
    match r
    case All => Some((minimum, maximum))
    case Only(v) =>
      var n := Stands(v, minimum, maximum, names);
      if n.Some? && !stepped then Some((n.value, n.value)) else None
    case From(first, last) =>
      var m, n := Stands(first, minimum, maximum, names), Stands(last, minimum, maximum, names);
      if m.Some? && n.Some? && m.value <= n.value then Some((m.value, n.value)) else None
  }

  lemma RangeRead(r: Range, stepped: bool, minimum: int, maximum: int, names: map<string, int>)
    requires Lettered(r) && Capitals(names) && maximum <= 0xFFFF_FFFF
    ensures RangeOf(SpellRange(r), stepped, minimum, maximum, names) == Ends(r, stepped, minimum, maximum, names)
  {
    RangesArePlain(r);
    match r
    case All =>
    case Only(v) =>
      RangeSplits(r);
      LinearValueRead(v, minimum, maximum, names);
    case From(first, last) =>
      RangeSplits(r);
      LinearValueRead(first, minimum, maximum, names);
      LinearValueRead(last, minimum, maximum, names);
  }

  /** A member of a linear field is read back as what was written, and refused exactly when that makes no sense. */
  lemma LinearMembersRead(r: Range, step: Option<nat>, minimum: int, maximum: int, names: map<string, int>)
    requires Lettered(r) && Capitals(names) && maximum <= 0xFFFF_FFFF
    ensures LinearMember(SpellMember(r, step), minimum, maximum, names) ==
            match (Ends(r, step.Some?, minimum, maximum, names), StepRead(step))
            case (Some(ends), Some(k)) => Some(Steps(ends.0, ends.1, k))
            case _ => None
  {
    MemberSplits(r, step);
    RangesArePlain(r);
    RangeRead(r, step.Some?, minimum, maximum, names);
  }

  /** Is `day` an `step`-th day of the walk forward from `first` to `last`? */
  predicate OnWalk(first: int, last: int, step: int, day: int)
    requires step > 0
  {
    0 <= day < 7 && (day - first) % 7 <= (last - first) % 7 && ((day - first) % 7) % step == 0
  }

  /** How far `day` is from `first` and which day that distance leads to are inverse. */
  lemma DayApart(first: int, day: int, k: int)
    requires 0 <= first < 7 && 0 <= day < 7 && 0 <= k < 7
    ensures DayAfter(first, k) == day <==> k == (day - first) % 7
  {
    assert (day - first) % 7 == if day >= first then day - first else day - first + 7;
    assert DayAfter(first, k) == if first + k < 7 then first + k else first + k - 7;
  }

  lemma WalksRead(first: int, last: int, step: int, day: int)
    requires 0 <= first < 7 && 0 <= last < 7 && step > 0
    ensures day in CyclicBits(first, last, step) <==> OnWalk(first, last, step, day)
  {
    if OnWalk(first, last, step, day) {
      var k := (day - first) % 7;
      DayApart(first, day, k);
      assert CyclicDay(first, step, k);
    }
    if day in CyclicBits(first, last, step) {
      var k :| 0 <= k < Span(first, last) + 1 && CyclicDay(first, step, k) && day == DayAfter(first, k);
      DayApart(first, day, k);
    }
  }

  /** What a weekday member selects: a lone star is every day, and a step needs a range to count from. */
  function DaysOf(r: Range, step: Option<nat>): Option<Bits> {
    match (r, StepRead(step))
    case (All, Some(_)) => if step.None? then Some(Bits(ALL_DAYS, false, false)) else None
    case (Only(v), Some(_)) =>
      var d := WeekdayOf(Spell(v));
      if d.Some? && step.None? then Some(Bits({d.value.value}, d.value.zero, d.value.seven)) else None
    case (From(first, last), Some(k)) =>
      var d, e := WeekdayOf(Spell(first)), WeekdayOf(Spell(last));
      if d.Some? && e.Some?
      then Some(Bits(CyclicBits(d.value.value, e.value.value, k), d.value.zero || e.value.zero, d.value.seven || e.value.seven))
      else None
    case _ => None
  }

  lemma WeekdayMembersRead(r: Range, step: Option<nat>)
    requires Lettered(r)
    ensures WeekdayMember(SpellMember(r, step)) == DaysOf(r, step)
  {
    MemberSplits(r, step);
    RangesArePlain(r);
    if !r.All? {
      RangeSplits(r);
    }
  }

  // ---------- Fields and whole expressions ----------

  /** Blanks and tabs separate fields, and nothing else does. */
  lemma SeparatorsAre(c: char)
    ensures IsSeparator(c) <==> c in " \t"
  {
    assert " \t" == [' ', '\t'];
  }

  predicate Unbroken(s: string) {
    s != [] && forall i :: 0 <= i < |s| ==> !IsSeparator(s[i])
  }

  lemma WordEndsAt(s: string, from: nat, k: nat)
    requires from <= k <= |s| && (forall i :: from <= i < k ==> !IsSeparator(s[i])) && (k < |s| ==> IsSeparator(s[k]))
    ensures WordEnd(s, from) == k
  {
  }

  /** A field ends at the first separator, and separators in a row count as one. */
  lemma WordsRead(w: string, c: char, rest: string)
    requires Unbroken(w) && IsSeparator(c)
    ensures Words(w) == [w]
    ensures Words(w + [c] + rest) == [w] + Words(rest)
    ensures Words([c] + rest) == Words(rest)
  {
    WordEndsAt(w, 0, |w|);
    assert w[..|w|] == w && w[|w|..] == [];
    var s := w + [c] + rest;
    WordEndsAt(s, 0, |w|);
    assert s[0] == w[0] && s[..|w|] == w && s[|w|..] == [c] + rest;
    assert ([c] + rest)[1..] == rest;
  }

  predicate Blank(s: string) {
    forall i :: 0 <= i < |s| ==> IsSeparator(s[i])
  }

  /** Separators around a text that neither begins nor ends with one are dropped. */
  lemma {:induction false} TrimRead(before: string, s: string, after: string)
    requires Blank(before) && Blank(after) && s != [] && !IsSeparator(s[0]) && !IsSeparator(s[|s| - 1])
    ensures Trim(before + s + after) == s
    decreases |before| + |after|
  {
    var t := before + s + after;
    if before != [] {
      assert t[1..] == before[1..] + s + after;
      TrimRead(before[1..], s, after);
    } else if after != [] {
      assert t[0] == s[0];
      assert t[..|t| - 1] == before + s + after[..|after| - 1];
      TrimRead(before, s, after[..|after| - 1]);
    } else {
      assert t == s;
    }
  }

  /** Fields on a line, one blank between each two. */
  function Line(fields: seq<string>): string
    requires fields != []
  {
    if |fields| == 1 then fields[0] else fields[0] + " " + Line(fields[1..])
  }

  predicate AllUnbroken(fields: seq<string>) {
    forall i :: 0 <= i < |fields| ==> Unbroken(fields[i])
  }

  lemma {:induction false} LinesRead(fields: seq<string>)
    requires fields != [] && AllUnbroken(fields)
    ensures Words(Line(fields)) == fields
  {
    WordsRead(fields[0], ' ', "");
    if |fields| > 1 {
      LinesRead(fields[1..]);
      WordsRead(fields[0], ' ', Line(fields[1..]));
    }
  }

  lemma {:induction false} LinesEnd(fields: seq<string>)
    requires fields != [] && AllUnbroken(fields)
    ensures var s := Line(fields); s != [] && s[0] == fields[0][0] && !IsSeparator(s[|s| - 1])
  {
    if |fields| > 1 {
      LinesEnd(fields[1..]);
    }
  }

  /**
   Fields with blanks between and around them are read in the order minute,
   hour, day, month, weekday; any other number of fields is refused.
   */
  lemma ExpressionsRead(before: string, fields: seq<string>, after: string)
    requires fields != [] && AllUnbroken(fields) && Blank(before) && Blank(after) && fields[0][0] != '@'
    requires var text := before + Line(fields) + after; |text| <= 512 && '\0' !in text
    ensures var r := Denotes(before + Line(fields) + after);
            && (r.Some? <==> && |fields| == 5
                             && FieldBits(MINUTES, fields[0]).Some? && FieldBits(HOURS, fields[1]).Some?
                             && FieldBits(DAYS, fields[2]).Some? && FieldBits(MONTHS, fields[3]).Some?
                             && FieldBits(Weekdays, fields[4]).Some?)
            && (r.Some? ==> r.value == CronExpression(FieldBits(MINUTES, fields[0]).value, FieldBits(HOURS, fields[1]).value,
                                                      FieldBits(DAYS, fields[2]).value, FieldBits(MONTHS, fields[3]).value,
                                                      FieldBits(Weekdays, fields[4]).value))
  {
    LinesRead(fields);
    LinesEnd(fields);
    TrimRead(before, Line(fields), after);
    assert Expand(Line(fields)) == Line(fields);
  }

  // ---------- Shorthands ----------

  lemma LoneMember(g: Grammar, member: string)
    requires ',' !in member
    ensures var s := Selects(g, member);
            FieldBits(g, member) == if s.Some? && !(s.value.zero && s.value.seven) then Some(s.value.bits) else None
  {
    SplitAtFirst(member, ',', "");
    var s := Selects(g, member);
    if s.Some? {
      assert Both(NOTHING, s.value) == s.value;
    }
  }

  /** A star selects the whole of a field. */
  lemma StarField(g: Grammar)
    requires g.Linear? && Capitals(g.names) && g.minimum <= g.maximum <= 0xFFFF_FFFF
    ensures var bits := FieldBits(g, "*");
            bits.Some? && forall b :: b in bits.value <==> 0 <= b <= g.maximum - g.minimum
  {
    LinearMembersRead(All, None, g.minimum, g.maximum, g.names);
    LoneMember(g, "*");
  }

  lemma NumberMember(g: Grammar, n: nat)
    requires g.Linear? && Capitals(g.names) && g.minimum <= n <= g.maximum <= 0xFFFF_FFFF
    ensures Selects(g, Digits(n)) == Some(Bits({n - g.minimum}, false, false))
  {
    LinearMembersRead(Only(Number(n)), None, g.minimum, g.maximum, g.names);
    DigitsRead(n);
    assert StepBits(Steps(n, n, 1), g.minimum) == {n - g.minimum};
  }

  /** A number selects itself. */
  lemma NumberField(g: Grammar, n: nat)
    requires g.Linear? && Capitals(g.names) && g.minimum <= n <= g.maximum <= 0xFFFF_FFFF
    ensures FieldBits(g, Digits(n)) == Some({n - g.minimum})
  {
    NumberMember(g, n);
    ValuesArePlain(Number(n), ',');
    LoneMember(g, Digits(n));
  }

  /** A shorthand and the five fields it stands for. */
  predicate Shorthand(shorthand: string, full: string) {
    || (shorthand == "@hourly" && full == "0 * * * *")
    || (shorthand == "@daily" && full == "0 0 * * *")
    || (shorthand == "@weekly" && full == "0 0 * * SUN")
  }

  lemma ShorthandTexts(before: string, shorthand: string, full: string, after: string)
    requires Blank(before) && Blank(after) && Shorthand(shorthand, full)
    ensures Expand(Trim(before + shorthand + after)) == full == Expand(Trim(full)) && |full| <= 512
    ensures '\0' !in full && '\0' !in before + shorthand + after
  {
    TrimRead(before, shorthand, after);
    TrimRead("", full, "");
    assert "" + full + "" == full;
  }

  lemma SameText(s: string, t: string)
    requires Expand(Trim(s)) == Expand(Trim(t)) && |s| <= 512 && |t| <= 512 && '\0' !in s && '\0' !in t
    ensures Denotes(s) == Denotes(t)
  {
  }

  /** A shorthand, with separators around it or not, stands for its five fields. */
  lemma ShorthandsRead(before: string, shorthand: string, full: string, after: string)
    requires Blank(before) && Blank(after) && |before + shorthand + after| <= 512 && Shorthand(shorthand, full)
    ensures Denotes(before + shorthand + after) == Denotes(full)
  {
    ShorthandTexts(before, shorthand, full, after);
    SameText(before + shorthand + after, full);
  }
}
