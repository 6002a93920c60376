/**
 What one Process object does to the outside world, as a history of events.
 Every event names the child it concerns; children are numbered in creation
 order, so a reused process identifier never confuses two of them.
 */
module ProcessHistory {
  import opened Wrappers
  import opened ProcessExits

  datatype Sig = Term | Kill

  datatype Event =
    | Accepted(c: nat)                      // start() succeeded for this child
    | StopAccepted(c: nat, kind: ExitKind)  // a stop cause was fixed
    | GroupSignalled(c: nat, sig: Sig)
    | LeaderKilled(c: nat)
    | Reaped(c: nat, status: Option<nat>)   // waited for and given up; the status is known unless discarded
    | LaunchResolved(c: nat, clean: bool)   // the exec-status channel is settled
    | OutputClosed(c: nat, index: nat, lost: bool)  // end of file, or explicit loss
    | StartedEmitted(c: nat)
    | OutputEmitted(c: nat, index: nat)
    | FinishedEmitted(c: nat, exit: ProcessExit)
    | Abandoned(c: nat)                     // the object was destroyed during this run

  /** How far one output has come. */
  datatype End = End(closed: bool, lost: bool)

  /** What has happened to one child so far. */
  datatype Run = Run(
    accepted: bool,
    stop: Option<ExitKind>,
    groupKilled: bool,
    reaped: bool,
    status: Option<nat>,
    launch: Option<bool>,
    out: End,
    err: End,
    started: bool,
    output: bool,
    settled: bool)
  {
    function Closed(index: nat): bool {
      if index == 0 then out.closed else err.closed
    }
  }

  const NEW_RUN := Run(false, None, false, false, None, None, End(false, false), End(false, false), false, false, false)

  function After(r: Run, e: Event): Run {
    match e
    case Accepted(_) => r.(accepted := true)
    case StopAccepted(_, k) => r.(stop := Some(k))
    case GroupSignalled(_, s) => if s.Kill? then r.(groupKilled := true) else r
    case LeaderKilled(_) => r
    case Reaped(_, status) => r.(reaped := true, status := status)
    case LaunchResolved(_, clean) => r.(launch := Some(clean))
    case OutputClosed(_, i, lost) =>
      if i == 0 then r.(out := End(true, lost)) else r.(err := End(true, lost))
    case StartedEmitted(_) => r.(started := true)
    case OutputEmitted(_, _) => r.(output := true)
    case FinishedEmitted(_, _) => r.(settled := true)
    case Abandoned(_) => r.(settled := true)
  }

  predicate StopCause(kind: ExitKind) {
    kind.TimedOut? || kind.Cancelled? || kind.Interrupted?
  }

  /** The completion record fits everything that happened to the child before it. */
  predicate ExitFits(r: Run, x: ProcessExit) {
    && (if x.kind.Interrupted? then OneObserved(x) && x.startError.None? else ValidateProcessExit(x))
    && (r.stop.Some? ==> x.kind == r.stop.value)
    && (r.stop.None? ==> x.kind.StartFailed? || x.kind.Exited? || x.kind.Signaled?)
    && (x.kind.Exited? || x.kind.Signaled? ==> r.started)
    && (!x.kind.StartFailed? ==> r.status.Some? && Observes(x, r.status.value))
    && x.stdoutLost == r.out.lost && x.stderrLost == r.err.lost
    && (x.kind.StartFailed? ==> r.launch == Some(false))
  }

  /** May `e` happen to a child of which `r` is already known? */
  predicate Allowed(r: Run, e: Event) {
    match e
    case Accepted(_) => !r.accepted && !r.reaped && !r.settled
    case StopAccepted(_, k) => r.stop.None? && !r.reaped && !r.settled && StopCause(k)
    case GroupSignalled(_, _) => !r.reaped && !r.settled
    case LeaderKilled(_) => !r.reaped && !r.settled
    case Reaped(_, _) => !r.reaped && !r.settled && (r.accepted ==> r.groupKilled)
    case LaunchResolved(_, _) => r.launch.None? && !r.settled
    case OutputClosed(_, i, _) => i < 2 && !r.Closed(i) && r.launch.Some? && !r.settled
    case StartedEmitted(_) => !r.started && r.launch == Some(true) && r.accepted && !r.settled && !r.output
    case OutputEmitted(_, i) =>
      i < 2 && !r.Closed(i) && r.accepted && !r.settled && r.launch.Some? && (r.launch.value ==> r.started)
    case FinishedEmitted(_, x) =>
      r.accepted && !r.settled && r.reaped && r.launch.Some? && r.out.closed && r.err.closed && ExitFits(r, x)
    case Abandoned(_) => r.accepted && !r.settled && r.reaped
  }

  /** A history, oldest event first. */
  datatype History = Nothing | Then(before: History, last: Event)
  {
    function Length(): nat {
      match this
      case Nothing => 0
      case Then(before, _) => before.Length() + 1
    }

    /** The history as it was when it had `n` events. */
    function Upto(n: nat): (h: History)
      requires n <= Length()
      ensures h.Length() == n
    {
      if n == Length() then this else before.Upto(n)
    }

    /** The event number `i`. */
    function At(i: nat): Event
      requires i < Length()
    {
      Upto(i + 1).last
    }
  }

  function RunOf(h: History, c: nat): Run {
    match h
    case Nothing => NEW_RUN
    case Then(before, e) => if e.c == c then After(RunOf(before, c), e) else RunOf(before, c)
  }

  /** A history every event of which was allowed when it happened. */
  predicate Lawful(h: History) {
    h.Then? ==> Lawful(h.before) && Allowed(RunOf(h.before, h.last.c), h.last)
  }

  /** Accepted runs that were neither finished nor abandoned. */
  function Owed(h: History): int {
    match h
    case Nothing => 0
    case Then(before, e) =>
      Owed(before) + (if e.Accepted? then 1 else if e.FinishedEmitted? || e.Abandoned? then -1 else 0)
  }

  /** The completion of this child was emitted. */
  ghost predicate Finished(h: History, c: nat) {
    h.Then? && ((h.last.FinishedEmitted? && h.last.c == c) || Finished(h.before, c))
  }

  /** The largest child number mentioned. */
  function Newest(h: History): nat {
    match h
    case Nothing => 0
    case Then(before, e) => if e.c > Newest(before) then e.c else Newest(before)
  }

  lemma {:induction false} LaterIsNew(h: History, c: nat)
    requires c > Newest(h)
    ensures RunOf(h, c) == NEW_RUN
  {
    if h.Then? {
      LaterIsNew(h.before, c);
    }
  }

  // ---------- Which children are owed a completion ----------

  /** This child was accepted and is neither finished nor abandoned. */
  ghost predicate Open(h: History, c: nat) {
    RunOf(h, c).accepted && !RunOf(h, c).settled
  }

  /** How many of the first `n` children are owed a completion. */
  ghost function OpenBelow(h: History, n: nat): nat {
    if n == 0 then 0 else OpenBelow(h, n - 1) + (if Open(h, n - 1) then 1 else 0)
  }

  lemma {:induction false} OpenBelowStep(h: History, e: Event, n: nat)
    ensures OpenBelow(Then(h, e), n) - OpenBelow(h, n)
         == if e.c >= n then 0 else (if Open(Then(h, e), e.c) then 1 else 0) - (if Open(h, e.c) then 1 else 0)
  {
    if n > 0 {
      OpenBelowStep(h, e, n - 1);
    }
  }

  lemma OpenStep(r: Run, e: Event)
    requires Allowed(r, e)
    ensures var open := r.accepted && !r.settled;
            var after := After(r, e).accepted && !After(r, e).settled;
            if e.Accepted? then !open && after
            else if e.FinishedEmitted? || e.Abandoned? then open && !after
            else open == after
  {
  }

  /** The balance of acceptances and completions counts exactly the open children. */
  lemma {:induction false} OwedCounts(h: History, n: nat)
    requires Lawful(h) && n > Newest(h)
    ensures Owed(h) == OpenBelow(h, n)
  {
    match h
    case Nothing =>
      NothingOpen(n);
    case Then(before, e) =>
      OwedCounts(before, n);
      OpenBelowStep(before, e, n);
      OpenStep(RunOf(before, e.c), e);
  }

  lemma {:induction false} NothingOpen(n: nat)
    ensures OpenBelow(Nothing, n) == 0
  {
    if n > 0 {
      NothingOpen(n - 1);
    }
  }

  lemma {:induction false} OpenIsCounted(h: History, n: nat, c: nat, d: nat)
    requires c < n && d < n && Open(h, c) && Open(h, d)
    ensures OpenBelow(h, n) >= if c == d then 1 else 2
  {
    if c != n - 1 && d != n - 1 {
      OpenIsCounted(h, n - 1, c, d);
    } else if c != n - 1 {
      OpenIsCounted(h, n - 1, c, c);
    } else if d != n - 1 {
      OpenIsCounted(h, n - 1, d, d);
    }
  }

  /** When at most the newest child is owed a completion, no other child is. */
  lemma OwedByChild(h: History, newest: nat, active: bool)
    requires Lawful(h) && Newest(h) <= newest && Owed(h) == if active then 1 else 0
    requires active ==> Open(h, newest)
    ensures forall c :: Open(h, c) <==> c == newest && active
  {
    OwedCounts(h, newest + 1);
    forall c: nat | Open(h, c) ensures c == newest && active {
      if c > newest {
        LaterIsNew(h, c);
        assert false;
      } else {
        OpenIsCounted(h, newest + 1, c, if active then newest else c);
      }
    }
  }

  // ---------- What a lawful history guarantees ----------

  /** In a lawful history every event was allowed by the events before it. */
  lemma {:induction false} LawfulAt(h: History, i: nat)
    requires Lawful(h) && i < h.Length()
    ensures h.Upto(i + 1) == Then(h.Upto(i), h.At(i))
    ensures Lawful(h.Upto(i)) && Allowed(RunOf(h.Upto(i), h.At(i).c), h.At(i))
  {
    if i + 1 < h.Length() {
      LawfulAt(h.before, i);
    }
  }

  /** The run summary only ever gains facts. */
  predicate Grows(r: Run, s: Run) {
    && (r.accepted ==> s.accepted) && (r.groupKilled ==> s.groupKilled) && (r.reaped ==> s.reaped)
    && (r.out.closed ==> s.out.closed) && (r.err.closed ==> s.err.closed) && (r.started ==> s.started)
    && (r.output ==> s.output) && (r.settled ==> s.settled)
    && (r.launch.Some? ==> s.launch == r.launch) && (r.stop.Some? ==> s.stop == r.stop)
  }

  lemma AllowedGrows(r: Run, e: Event)
    requires Allowed(r, e)
    ensures Grows(r, After(r, e))
  {
  }

  lemma {:induction false} GrowsAlong(h: History, i: nat, j: nat, c: nat)
    requires Lawful(h) && i <= j <= h.Length()
    ensures Grows(RunOf(h.Upto(i), c), RunOf(h.Upto(j), c))
    decreases j - i
  {
    if i < j {
      GrowsAlong(h, i, j - 1, c);
      LawfulAt(h, j - 1);
      if h.At(j - 1).c == c {
        AllowedGrows(RunOf(h.Upto(j - 1), c), h.At(j - 1));
      }
    }
  }

  /** Everything recorded of a child with one of its events is still recorded later. */
  lemma EventStays(h: History, i: nat, j: nat)
    requires Lawful(h) && i < j <= h.Length()
    ensures Grows(After(RunOf(h.Upto(i), h.At(i).c), h.At(i)), RunOf(h.Upto(j), h.At(i).c))
  {
    LawfulAt(h, i);
    GrowsAlong(h, i + 1, j, h.At(i).c);
  }

  /** A group kill is in the summary only because a KILL was sent to the group. */
  lemma {:induction false} KilledBy(h: History, c: nat) returns (k: nat)
    requires RunOf(h, c).groupKilled
    ensures k < h.Length() && h.At(k) == GroupSignalled(c, Kill)
  {
    if RunOf(h.before, c).groupKilled {
      k := KilledBy(h.before, c);
    } else {
      OnlyKillKills(RunOf(h.before, c), h.last);
      k := h.Length() - 1;
    }
  }

  lemma OnlyKillKills(r: Run, e: Event)
    requires !r.groupKilled && After(r, e).groupKilled
    ensures e == GroupSignalled(e.c, Kill)
  {
  }

  lemma {:induction false} UptoAt(h: History, n: nat, i: nat)
    requires i < n <= h.Length()
    ensures h.Upto(n).At(i) == h.At(i)
  {
    if n < h.Length() {
      UptoAt(h.before, n, i);
    }
  }

  /** No group and no leader is signalled, nothing is reaped again and no stop is accepted, once a child was reaped. */
  lemma NoSignalAfterReap(h: History, i: nat, j: nat)
    requires Lawful(h) && i < j < h.Length() && h.At(i).Reaped?
    requires var e := h.At(j); e.GroupSignalled? || e.LeaderKilled? || e.Reaped? || e.StopAccepted?
    ensures h.At(j).c != h.At(i).c
  {
    LawfulAt(h, j);
    EventStays(h, i, j);
  }

  /** An accepted child is reaped only after a KILL was attempted on its whole group. */
  lemma KillBeforeReap(h: History, i: nat, j: nat)
    requires Lawful(h) && i < j < h.Length() && h.At(i).Accepted? && h.At(j).Reaped? && h.At(j).c == h.At(i).c
    ensures exists k :: 0 <= k < j && h.At(k) == GroupSignalled(h.At(i).c, Kill)
  {
    LawfulAt(h, j);
    EventStays(h, i, j);
    var k := KilledBy(h.Upto(j), h.At(i).c);
    UptoAt(h, j, k);
  }

  /** finished is emitted at most once for a child, and nothing at all happens to that child afterwards. */
  lemma FinishedIsLast(h: History, i: nat, j: nat)
    requires Lawful(h) && i < j < h.Length() && (h.At(i).FinishedEmitted? || h.At(i).Abandoned?)
    ensures h.At(j).c != h.At(i).c
  {
    LawfulAt(h, i);
    LawfulAt(h, j);
    EventStays(h, i, j);
  }

  /** The first accepted stop cause of a child is the only one, and it is the kind its completion reports. */
  lemma FirstStopWins(h: History, i: nat, j: nat)
    requires Lawful(h) && i < h.Length() && j < h.Length() && h.At(i).StopAccepted? && h.At(j).c == h.At(i).c
    ensures h.At(j).StopAccepted? ==> i == j
    ensures h.At(j).FinishedEmitted? ==> i < j && h.At(j).exit.kind == h.At(i).kind
  {
    LawfulAt(h, i);
    LawfulAt(h, j);
    if i < j {
      EventStays(h, i, j);
    } else if j < i {
      EventStays(h, j, i);
    }
  }

  /** A completed child was reaped after a group KILL, resolved and closed first; and it completed as its history demands. */
  lemma FinishedIsReady(h: History, j: nat)
    requires Lawful(h) && j < h.Length() && h.At(j).FinishedEmitted?
    ensures var r := RunOf(h.Upto(j), h.At(j).c);
            && r.accepted && r.reaped && r.launch.Some? && r.out.closed && r.err.closed && r.groupKilled
            && ExitFits(r, h.At(j).exit)
  {
    LawfulAt(h, j);
    ReapedWasKilled(h.Upto(j), h.At(j).c);
  }

  lemma {:induction false} ReapedWasKilled(h: History, c: nat)
    requires Lawful(h)
    ensures RunOf(h, c).accepted && RunOf(h, c).reaped ==> RunOf(h, c).groupKilled
  {
    if h.Then? {
      ReapedWasKilled(h.before, c);
    }
  }
}
