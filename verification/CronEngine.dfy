/**
 From local occurrences to UTC instants: the cursor loop of the cron engine
 over an arbitrary timezone, and the list of upcoming occurrences.
 */
module CronEngine {
  import opened Wrappers
  import opened Calendar
  import opened CronSearch

  /** A timezone is any pair of partial conversions between UTC and local ticks. */
  datatype Zone = Zone(local: int -> Option<int>, utc: int -> Option<int>)

  datatype EngineError = SearchFailed(error: CronError) | ConversionFailed | InvalidCount

  const MINIMUM_MINUTES := -153_722_867
  const MAXIMUM_MINUTES := 153_722_867
  const MAXIMUM_COUNT := 200

  predicate YearInRange(y: int) {
    MINIMUM_YEAR <= y <= MAXIMUM_YEAR
  }

  function YearOfTicks(ticks: int): int {
    YearOf((ticks / TICKS_PER_MINUTE) / MINUTES_PER_DAY)
  }

  /** The selected local minute `t` does not lead past `bound`. */
  predicate NotPast(zone: Zone, bound: int, t: int) {
    var u := zone.utc(t * TICKS_PER_MINUTE);
    u.Some? && u.value <= bound
  }

  /** Every selected minute after `lower` and up to `cursor`, in local order, leads no further than `bound`. */
  ghost predicate AllNotPast(e: CronExpression, zone: Zone, bound: int, lower: int, cursor: int) {
    forall t :: lower < t * TICKS_PER_MINUTE <= cursor && Matches(e, t) ==> NotPast(zone, bound, t)
  }

  /** `u` is where the first selected minute that leads past `bound` leads, in local order after `lower`. */
  ghost predicate FirstPast(e: CronExpression, zone: Zone, bound: int, lower: int, t: int, u: int) {
    && u > bound && lower < t * TICKS_PER_MINUTE && Matches(e, t) && zone.utc(t * TICKS_PER_MINUTE) == Some(u)
    && AllNotPast(e, zone, bound, lower, t * TICKS_PER_MINUTE - 1)
  }

  /** The ticks of the minute fit the clock's 64 bits, and its year the calendar. */
  predicate Representable(t: int) {
    -0x8000_0000_0000_0000 <= t * TICKS_PER_MINUTE <= 0x7fff_ffff_ffff_ffff && YearInRange(YearOf(t / MINUTES_PER_DAY))
  }

  /** The search moves on from this selected minute. */
  predicate Skipped(zone: Zone, bound: int, lastYear: int, t: int) {
    && Representable(t) && YearOf(t / MINUTES_PER_DAY) <= lastYear
    && NotPast(zone, bound, t) && WindowInRange(t * TICKS_PER_MINUTE)
  }

  ghost predicate AllSkipped(e: CronExpression, zone: Zone, bound: int, lower: int, cursor: int) {
    forall t :: lower < t * TICKS_PER_MINUTE <= cursor && Matches(e, t) ==>
                  Skipped(zone, bound, YearOfTicks(lower) + WINDOW_YEARS, t)
  }

  /** `t` is the first selected minute after `lower` from which the search does not move on. */
  ghost predicate Decisive(e: CronExpression, zone: Zone, bound: int, lower: int, t: int) {
    && lower < t * TICKS_PER_MINUTE && Matches(e, t) && !Skipped(zone, bound, YearOfTicks(lower) + WINDOW_YEARS, t)
    && AllSkipped(e, zone, bound, lower, t * TICKS_PER_MINUTE - 1)
  }

  /** What the search answers at its decisive minute. */
  function Verdict(zone: Zone, bound: int, lastYear: int, t: int): Result<int, EngineError> {
    if !Representable(t) then Err(SearchFailed(OccurrenceOutOfRange))
    else if YearOf(t / MINUTES_PER_DAY) > lastYear then Err(SearchFailed(NoFutureOccurrence))
    else
      match zone.utc(t * TICKS_PER_MINUTE)
      case None => Err(ConversionFailed)
      case Some(u) =>
        if u > bound then Ok(u) else Err(SearchFailed(OccurrenceOutOfRange))  // too late to search on from
  }

  /** The answer to every bound, for an expression that selects something. */
  ghost predicate Answers(e: CronExpression, zone: Zone, bound: int, r: Result<int, EngineError>) {
    var local := zone.local(bound);
    if local.None? then r == Err(ConversionFailed)
    else if !WindowInRange(local.value) then r == Err(SearchFailed(OccurrenceOutOfRange))
    else if !Possible(e) then r == Err(SearchFailed(NoFutureOccurrence))
    else
      exists t :: Decides(e, zone, bound, local.value, t, r)
  }

  ghost predicate Decides(e: CronExpression, zone: Zone, bound: int, lower: int, t: int, r: Result<int, EngineError>) {
    Decisive(e, zone, bound, lower, t) && r == Verdict(zone, bound, YearOfTicks(lower) + WINDOW_YEARS, t)
  }

  lemma DecisiveFirst(e: CronExpression, zone: Zone, bound: int, lower: int, t: int, u: int)
    requires Decisive(e, zone, bound, lower, t) && Decisive(e, zone, bound, lower, u)
    ensures t <= u
  {
  }

  lemma DecidedOnce(e: CronExpression, zone: Zone, bound: int, lower: int, t: int, u: int,
                    r: Result<int, EngineError>, s: Result<int, EngineError>)
    requires Decides(e, zone, bound, lower, t, r) && Decides(e, zone, bound, lower, u, s)
    ensures t == u && r == s
  {
    DecisiveFirst(e, zone, bound, lower, t, u);
    DecisiveFirst(e, zone, bound, lower, u, t);
  }

  /** The decisive minute of a search that starts in range and has something to find. */
  lemma DecidedBy(e: CronExpression, zone: Zone, bound: int, lower: int, r: Result<int, EngineError>) returns (t: int)
    requires zone.local(bound) == Some(lower) && WindowInRange(lower) && Possible(e)
    requires Answers(e, zone, bound, r)
    ensures Decides(e, zone, bound, lower, t, r)
  {
    t :| Decides(e, zone, bound, lower, t, r);
  }

  /** There is one decisive minute, so there is one answer. */
  lemma OneAnswer(e: CronExpression, zone: Zone, bound: int, r: Result<int, EngineError>, s: Result<int, EngineError>)
    requires Answers(e, zone, bound, r) && Answers(e, zone, bound, s)
    ensures r == s
  {
    var local := zone.local(bound);
    if local.Some? && WindowInRange(local.value) && Possible(e) {
      var t := DecidedBy(e, zone, bound, local.value, r);
      var u := DecidedBy(e, zone, bound, local.value, s);
      DecidedOnce(e, zone, bound, local.value, t, u, r, s);
    }
  }

  lemma ReachesDecides(e: CronExpression, zone: Zone, bound: int, lower: int, t: int, u: int)
    ensures Reaches(e, zone, bound, lower, t, u) <==> Decides(e, zone, bound, lower, t, Ok(u))
  {
  }

  /**
   The answer is `u` exactly when the bound converts, the window starts in
   range, and `u` is where the first selected minute past the bound leads, that
   minute being representable and in the window and every earlier one passed.
   */
  lemma SucceedsExactly(e: CronExpression, zone: Zone, bound: int, r: Result<int, EngineError>, u: int)
    requires Answers(e, zone, bound, r)
    ensures r == Ok(u) <==>
              && zone.local(bound).Some? && WindowInRange(zone.local(bound).value)
              && exists t :: Reaches(e, zone, bound, zone.local(bound).value, t, u)
  {
    if zone.local(bound).Some? && WindowInRange(zone.local(bound).value) {
      var lower := zone.local(bound).value;
      if r == Ok(u) {
        var t := DecidedBy(e, zone, bound, lower, r);
        ReachesDecides(e, zone, bound, lower, t, u);
      }
      forall t | Reaches(e, zone, bound, lower, t, u) ensures r == Ok(u) {
        ReachesDecides(e, zone, bound, lower, t, u);
        MatchIsPossible(e, t);
        var s := DecidedBy(e, zone, bound, lower, r);
        DecidedOnce(e, zone, bound, lower, s, t, r, Ok(u));
      }
    }
  }

  ghost predicate Reaches(e: CronExpression, zone: Zone, bound: int, lower: int, t: int, u: int) {
    && FirstPast(e, zone, bound, lower, t, u)
    && Representable(t) && YearOf(t / MINUTES_PER_DAY) <= YearOfTicks(lower) + WINDOW_YEARS
    && AllSkipped(e, zone, bound, lower, t * TICKS_PER_MINUTE - 1)
  }

  /** `u` is the next occurrence after `bound`. */
  ghost predicate Occurrence(e: CronExpression, zone: Zone, bound: int, u: int) {
    zone.local(bound).Some? && exists t :: FirstPast(e, zone, bound, zone.local(bound).value, t, u)
  }

  /** From a cursor whose own minute was passed, the next selected minute is reached with everything before it passed. */
  lemma Extend(e: CronExpression, zone: Zone, bound: int, lower: int, cursor: int, t: int)
    requires lower <= cursor && AllSkipped(e, zone, bound, lower, cursor) && LeastAfter(e, cursor, t)
    ensures AllSkipped(e, zone, bound, lower, t * TICKS_PER_MINUTE - 1)
    ensures AllNotPast(e, zone, bound, lower, t * TICKS_PER_MINUTE - 1)
  {
  }

  /** Where the loop stands: at the lower bound, or at a selected minute that is not past it. */
  ghost predicate Standing(e: CronExpression, zone: Zone, bound: int, lower: int, cursor: int) {
    && lower <= cursor && YearOfTicks(cursor) <= YearOfTicks(lower) + WINDOW_YEARS
    && (cursor == lower || (WindowInRange(lower) && Stands(e, zone, bound, lower, cursor / TICKS_PER_MINUTE, cursor)))
    && AllSkipped(e, zone, bound, lower, cursor - 1)
  }

  ghost predicate Stands(e: CronExpression, zone: Zone, bound: int, lower: int, t: int, cursor: int) {
    && cursor == t * TICKS_PER_MINUTE && lower < cursor && Matches(e, t) && Representable(t)
    && YearOf(t / MINUTES_PER_DAY) <= YearOfTicks(lower) + WINDOW_YEARS && NotPast(zone, bound, t)
  }

  /** A cursor that can be searched on from was passed itself. */
  lemma PassCursor(e: CronExpression, zone: Zone, bound: int, lower: int, cursor: int)
    requires Standing(e, zone, bound, lower, cursor) && WindowInRange(cursor)
    ensures AllSkipped(e, zone, bound, lower, cursor)
  {
    forall t | lower < t * TICKS_PER_MINUTE <= cursor && Matches(e, t)
      ensures Skipped(zone, bound, YearOfTicks(lower) + WINDOW_YEARS, t)
    {
      if t * TICKS_PER_MINUTE == cursor {
        assert t == cursor / TICKS_PER_MINUTE;
      }
    }
  }

  /** The search from the cursor failed: nothing is selected at all, or the calendar ends. */
  lemma SearchEnds(e: CronExpression, zone: Zone, bound: int, cursor: int, error: CronError)
    requires zone.local(bound).Some? && Standing(e, zone, bound, zone.local(bound).value, cursor)
    requires (error == OccurrenceOutOfRange && !WindowInRange(cursor))
          || (error == NoFutureOccurrence && WindowInRange(cursor) && !Possible(e))
    ensures Answers(e, zone, bound, Err(SearchFailed(error)))
  {
    var lower := zone.local(bound).value;
    if cursor != lower {
      var t := cursor / TICKS_PER_MINUTE;
      MatchIsPossible(e, t);
      assert Decides(e, zone, bound, lower, t, Err(SearchFailed(error)));
    }
  }

  /** Everything selected before the minute found from the cursor was passed. */
  lemma FoundNext(e: CronExpression, zone: Zone, bound: int, lower: int, cursor: int, t: int)
    requires Standing(e, zone, bound, lower, cursor) && WindowInRange(cursor) && LeastAfter(e, cursor, t)
    ensures WindowInRange(lower) && lower < t * TICKS_PER_MINUTE && Matches(e, t)
    ensures AllSkipped(e, zone, bound, lower, t * TICKS_PER_MINUTE - 1)
    ensures AllNotPast(e, zone, bound, lower, t * TICKS_PER_MINUTE - 1)
  {
    PassCursor(e, zone, bound, lower, cursor);
    Extend(e, zone, bound, lower, cursor, t);
  }

  /** A minute the loop cannot stand at is the decisive one. */
  lemma FoundDecides(e: CronExpression, zone: Zone, bound: int, lower: int, t: int)
    requires zone.local(bound) == Some(lower) && WindowInRange(lower)
    requires lower < t * TICKS_PER_MINUTE && Matches(e, t) && !Stands(e, zone, bound, lower, t, t * TICKS_PER_MINUTE)
    requires AllSkipped(e, zone, bound, lower, t * TICKS_PER_MINUTE - 1)
    ensures Answers(e, zone, bound, Verdict(zone, bound, YearOfTicks(lower) + WINDOW_YEARS, t))
  {
    MatchIsPossible(e, t);
    assert Decides(e, zone, bound, lower, t, Verdict(zone, bound, YearOfTicks(lower) + WINDOW_YEARS, t));
  }

  /** A minute the loop can stand at is where it stands next. */
  lemma StandsNext(e: CronExpression, zone: Zone, bound: int, lower: int, t: int)
    requires WindowInRange(lower) && Stands(e, zone, bound, lower, t, t * TICKS_PER_MINUTE)
    requires AllSkipped(e, zone, bound, lower, t * TICKS_PER_MINUTE - 1)
    ensures Standing(e, zone, bound, lower, t * TICKS_PER_MINUTE)
  {
    assert t * TICKS_PER_MINUTE / TICKS_PER_MINUTE == t;
  }

  /** The minute found from the cursor is the decisive one unless the search moves on from it. */
  lemma Found(e: CronExpression, zone: Zone, bound: int, lower: int, cursor: int, t: int)
    requires zone.local(bound) == Some(lower)
    requires Standing(e, zone, bound, lower, cursor) && WindowInRange(cursor) && LeastAfter(e, cursor, t)
    ensures var verdict := Verdict(zone, bound, YearOfTicks(lower) + WINDOW_YEARS, t);
            if Stands(e, zone, bound, lower, t, t * TICKS_PER_MINUTE)
            then Standing(e, zone, bound, lower, t * TICKS_PER_MINUTE)
            else Answers(e, zone, bound, verdict) && (verdict.Ok? ==> FirstPast(e, zone, bound, lower, t, verdict.value))
    ensures AllNotPast(e, zone, bound, lower, t * TICKS_PER_MINUTE - 1)
  {
    FoundNext(e, zone, bound, lower, cursor, t);
    if Stands(e, zone, bound, lower, t, t * TICKS_PER_MINUTE) {
      StandsNext(e, zone, bound, lower, t);
    } else {
      FoundDecides(e, zone, bound, lower, t);
    }
  }

  /** timezone_local_candidate(): the minute counts whose ticks fit 64 bits. */
  predicate CandidateFits(t: int) {
    MINIMUM_MINUTES <= t <= MAXIMUM_MINUTES
  }

  lemma CandidateFitsExactly(t: int)
    ensures CandidateFits(t) && YearInRange(YearOf(t / MINUTES_PER_DAY)) <==> Representable(t)
  {
  }

  /** One round of the cursor loop: the answer, or the cursor to go on from. */
  method Round(e: CronExpression, zone: Zone, bound: int, lower: int, lastYear: int, cursor: int)
    returns (r: Option<Result<int, EngineError>>, next: int)
    requires zone.local(bound) == Some(lower) && lastYear == YearOfTicks(lower) + WINDOW_YEARS
    requires Standing(e, zone, bound, lower, cursor)
    ensures r.None? ==> Standing(e, zone, bound, lower, next)
    ensures r.None? ==> cursor / TICKS_PER_MINUTE < next / TICKS_PER_MINUTE < YearStart(lastYear + 1) * MINUTES_PER_DAY
    ensures r.Some? && r.value.Ok? ==> Occurrence(e, zone, bound, r.value.value) && r.value.value > bound
    ensures r.Some? && NonEmpty(e) && InRange(e) ==> Answers(e, zone, bound, r.value)
    ensures r.Some? ==> r.value != Err(InvalidCount)
  {
    next := cursor;
    var found := NextLocalOccurrence(e, cursor);
    if found.Err? {
      if NonEmpty(e) && InRange(e) {
        SearchEnds(e, zone, bound, cursor, found.error);
      }
      return Some(Err(SearchFailed(found.error))), cursor;
    }
    var t := found.value;
    Found(e, zone, bound, lower, cursor, t);
    Advance(cursor, t, lastYear);
    CandidateFitsExactly(t);
    if !CandidateFits(t) || !YearInRange(YearOf(t / MINUTES_PER_DAY)) {
      return Some(Err(SearchFailed(OccurrenceOutOfRange))), cursor;
    }
    if YearOf(t / MINUTES_PER_DAY) > lastYear {
      return Some(Err(SearchFailed(NoFutureOccurrence))), cursor;
    }
    var u := zone.utc(t * TICKS_PER_MINUTE);
    if u.None? {
      return Some(Err(ConversionFailed)), cursor;
    }
    if u.value > bound {
      return Some(Ok(u.value)), cursor;
    }
    return None, t * TICKS_PER_MINUTE;
  }

  /**
   next_after(): the one answer `Answers` gives, which is the image of the first
   selected local minute that lies past the bound in UTC when there is one.
   */
  method NextAfter(e: CronExpression, zone: Zone, bound: int)
    returns (r: Result<int, EngineError>)
    ensures NonEmpty(e) && InRange(e) ==> Answers(e, zone, bound, r)
    ensures r.Ok? ==> r.value > bound && Occurrence(e, zone, bound, r.value)
    ensures r != Err(InvalidCount)
  {
    var local := zone.local(bound);
    if local.None? {
      return Err(ConversionFailed);
    }
    var lower := local.value;
    if !YearInRange(YearOfTicks(lower)) || YearOfTicks(lower) > MAXIMUM_YEAR - WINDOW_YEARS {
      return Err(SearchFailed(OccurrenceOutOfRange));
    }
    var lastYear := YearOfTicks(lower) + WINDOW_YEARS;
    var cursor := lower;
    while true
      invariant Standing(e, zone, bound, lower, cursor)
      decreases YearStart(lastYear + 1) * MINUTES_PER_DAY - cursor / TICKS_PER_MINUTE
    {
      var answer, next := Round(e, zone, bound, lower, lastYear, cursor);
      if answer.Some? {
        return answer.value;
      }
      cursor := next;
    }
  }

  lemma PassedBefore(e: CronExpression, zone: Zone, bound: int, lower: int, t: int, u: int)
    requires Decisive(e, zone, bound, lower, u) && Matches(e, t) && lower < t * TICKS_PER_MINUTE && t < u
    ensures NotPast(zone, bound, t)
  {
  }

  /** A search that gives up inside the calendar has looked at every selected minute of the window. */
  lemma GivesUpRightly(e: CronExpression, zone: Zone, bound: int, lower: int, t: int)
    requires Answers(e, zone, bound, Err(SearchFailed(NoFutureOccurrence))) && zone.local(bound) == Some(lower)
    requires Matches(e, t) && lower < t * TICKS_PER_MINUTE
    requires YearOf(t / MINUTES_PER_DAY) <= YearOfTicks(lower) + WINDOW_YEARS
    ensures NotPast(zone, bound, t)
  {
    MatchIsPossible(e, t);
    var u := DecidedBy(e, zone, bound, lower, Err(SearchFailed(NoFutureOccurrence)));
    YearsOrdered(t / MINUTES_PER_DAY, u / MINUTES_PER_DAY);
    PassedBefore(e, zone, bound, lower, t, u);
  }

  lemma YearsOrdered(a: int, b: int)
    requires YearOf(a) < YearOf(b)
    ensures a < b
  {
    YearStartMonotone(YearOf(a) + 1, YearOf(b));
  }

  /** A minute after the cursor is a later cursor, and stays below the end of the window while its year does. */
  lemma Advance(cursor: int, t: int, lastYear: int)
    requires t * TICKS_PER_MINUTE > cursor
    ensures t > cursor / TICKS_PER_MINUTE
    ensures YearOfTicks(t * TICKS_PER_MINUTE) == YearOf(t / MINUTES_PER_DAY)
    ensures YearOf(t / MINUTES_PER_DAY) <= lastYear ==> t < YearStart(lastYear + 1) * MINUTES_PER_DAY
  {
    assert (t * TICKS_PER_MINUTE) / TICKS_PER_MINUTE == t;
    var day := t / MINUTES_PER_DAY;
    if YearOf(day) <= lastYear {
      YearStartMonotone(YearOf(day) + 1, lastYear + 1);
    }
  }

  /** `u` is the next occurrence after `bound`, and the answer to it. */
  ghost predicate Follows(e: CronExpression, zone: Zone, bound: int, u: int) {
    && bound < u && Occurrence(e, zone, bound, u)
    && (NonEmpty(e) && InRange(e) ==> Answers(e, zone, bound, Ok(u)))
  }

  /** Each element follows the one before it. */
  ghost predicate Linked(follows: (int, int) -> bool, s: seq<int>) {
    s != [] && forall i :: 0 < i < |s| ==> follows(s[i - 1], s[i])
  }

  lemma LinkedMore(follows: (int, int) -> bool, s: seq<int>, u: int)
    requires Linked(follows, s) && follows(s[|s| - 1], u)
    ensures Linked(follows, s + [u])
  {
  }

  ghost predicate Agrees(e: CronExpression, zone: Zone, follows: (int, int) -> bool) {
    forall a, b {:trigger Follows(e, zone, a, b)} :: follows(a, b) == Follows(e, zone, a, b)
  }

  /** One more occurrence, or the failure that is the answer to the last one. */
  method Following(e: CronExpression, zone: Zone, ghost follows: (int, int) -> bool, last: int)
    returns (r: Result<int, EngineError>)
    requires Agrees(e, zone, follows)
    ensures r != Err(InvalidCount)
    ensures r.Ok? ==> follows(last, r.value)
    ensures r.Err? && NonEmpty(e) && InRange(e) ==> Answers(e, zone, last, r)
  {
    r := NextAfter(e, zone, last);
    assert r.Ok? ==> Follows(e, zone, last, r.value);
  }

  ghost function Follower(e: CronExpression, zone: Zone): (int, int) -> bool {
    (a, b) => Follows(e, zone, a, b)
  }

  /**
   next_cron_occurrences(): the asked number of occurrences, each following the
   one before and the first the bound. `so` are the bound and those found; a
   failure is the answer to the last of them.
   */
  method NextOccurrences(e: CronExpression, zone: Zone, bound: int, count: nat)
    returns (r: Result<seq<int>, EngineError>, ghost so: seq<int>)
    ensures r == Err(InvalidCount) <==> count == 0 || count > MAXIMUM_COUNT
    ensures Linked(Follower(e, zone), so) && so[0] == bound
    ensures r.Ok? ==> |r.value| == count && so == [bound] + r.value
    ensures r.Err? && r.error != InvalidCount && NonEmpty(e) && InRange(e) ==>
              |so| <= count && Answers(e, zone, so[|so| - 1], Err(r.error))
  {
    r, so := Collect(e, zone, Follower(e, zone), bound, count);
  }

  method Collect(e: CronExpression, zone: Zone, ghost follows: (int, int) -> bool, bound: int, count: nat)
    returns (r: Result<seq<int>, EngineError>, ghost so: seq<int>)
    requires Agrees(e, zone, follows)
    ensures r == Err(InvalidCount) <==> count == 0 || count > MAXIMUM_COUNT
    ensures Linked(follows, so) && so[0] == bound
    ensures r.Ok? ==> |r.value| == count && so == [bound] + r.value
    ensures r.Err? && r.error != InvalidCount && NonEmpty(e) && InRange(e) ==>
              |so| <= count && Answers(e, zone, so[|so| - 1], Err(r.error))
  {
    so := [bound];
    if count == 0 || count > MAXIMUM_COUNT {
      return Err(InvalidCount), so;
    }
    var occurrences: seq<int> := [];
    var cursor := bound;
    while |occurrences| < count
      invariant |occurrences| <= count && so == [bound] + occurrences && cursor == so[|occurrences|]
      invariant Linked(follows, so)
    {
      var next := Following(e, zone, follows, cursor);
      if next.Err? {
        return Err(next.error), so;
      }
      cursor := next.value;
      LinkedMore(follows, so, cursor);
      occurrences, so := occurrences + [cursor], so + [cursor];
    }
    return Ok(occurrences), so;
  }
}
