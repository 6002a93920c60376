/**
 The timer heap of the event loop: a binary heap with lazy cancellation. It
 refines a plain table from timer id to deadline and interval.
 */
module TimerHeap {
  import opened Wrappers
  import opened BinaryHeap

  datatype Timer = Timer(deadline: int, interval: int)

  type Table = map<nat, Timer>

  /** What a callback may do to the heap it is called from. */
  datatype Action = StartTimer(deadline: int, interval: int) | CancelTimer(id: nat)

  datatype Fire = Fire(id: nat, deadline: int)

  // ---------- The order in which timers come and go ----------

  datatype Log =
    | Fresh
    | Started(before: Log, id: nat)
    | Fired(before: Log, id: nat)
    | Retired(before: Log, id: nat)  // cancelled, or fired for the last time

  function Alive(log: Log): set<nat> {
    match log
    case Fresh => {}
    case Started(before, id) => Alive(before) + {id}
    case Fired(before, _) => Alive(before)
    case Retired(before, id) => Alive(before) - {id}
  }

  function Seen(log: Log): set<nat> {
    match log
    case Fresh => {}
    case Started(before, id) => Seen(before) + {id}
    case Fired(before, _) => Seen(before)
    case Retired(before, _) => Seen(before)
  }

  /** A timer fires only while it is alive, and an id is never given out twice. */
  predicate Lawful(log: Log) {
    match log
    case Fresh => true
    case Started(before, id) => Lawful(before) && id !in Seen(before)
    case Fired(before, id) => Lawful(before) && id in Alive(before)
    case Retired(before, _) => Lawful(before)
  }

  /** Does `log` continue `earlier`? */
  predicate Continues(log: Log, earlier: Log) {
    log == earlier || (!log.Fresh? && Continues(log.before, earlier))
  }

  /** Once a known timer is retired it is never alive again, so it never fires again. */
  lemma {:induction false} RetiredStaysDead(earlier: Log, log: Log, id: nat)
    requires Lawful(log) && Continues(log, earlier) && id in Seen(earlier) && id !in Alive(earlier)
    ensures id !in Alive(log) && id in Seen(log)
    ensures log != earlier && log.Fired? ==> log.id != id
  {
    if log != earlier {
      RetiredStaysDead(earlier, log.before, id);
    }
  }

  /** The log after the first `n` actions of a callback, when `next` is the next id to be given out. */
  function Acted(log: Log, next: nat, actions: seq<Action>, n: nat): Log
    requires n <= |actions|
  {
    if n == 0 then log
    else
      match actions[n - 1]
      case StartTimer(_, _) => Started(Acted(log, next, actions, n - 1), next + Starts(actions, n - 1))
      case CancelTimer(id) => Retired(Acted(log, next, actions, n - 1), id)
  }

  function Starts(actions: seq<Action>, n: nat): nat
    requires n <= |actions|
  {
    if n == 0 then 0 else Starts(actions, n - 1) + if actions[n - 1].StartTimer? then 1 else 0
  }

  lemma {:induction false} ContinuesOn(c: Log, b: Log, a: Log)
    requires Continues(c, b) && Continues(b, a)
    ensures Continues(c, a)
  {
    if c != b {
      ContinuesOn(c.before, b, a);
    }
  }

  // ---------- How often a timer is due ----------

  /** The deadlines of a timer up to `now`, in order. */
  function Due(t: Timer, now: int): seq<int>
    decreases if t.deadline <= now then now - t.deadline + 1 else 0
  {
    if t.deadline > now then []
    else if t.interval > 0 then [t.deadline] + Due(Timer(t.deadline + t.interval, t.interval), now)
    else [t.deadline]
  }

  /** A repeating timer due at d fires floor((now - d) / interval) + 1 times. */
  lemma {:induction false} DueCount(t: Timer, now: int)
    requires t.deadline <= now && t.interval > 0
    ensures |Due(t, now)| == (now - t.deadline) / t.interval + 1
    ensures forall k :: 0 <= k < |Due(t, now)| ==> Due(t, now)[k] == t.deadline + k * t.interval
    decreases now - t.deadline
  {
    var next := Timer(t.deadline + t.interval, t.interval);
    if next.deadline <= now {
      DueCount(next, now);
      assert (now - next.deadline) / t.interval + 1 == (now - t.deadline) / t.interval by {
        DivShift(now - t.deadline, t.interval);
      }
      forall k | 0 < k < |Due(t, now)|
        ensures Due(t, now)[k] == t.deadline + k * t.interval
      {
        assert Due(t, now)[k] == Due(next, now)[k - 1] == next.deadline + (k - 1) * t.interval;
        assert (k - 1) * t.interval == k * t.interval - t.interval;
      }
    } else {
      DivSmall(now - t.deadline, t.interval);
    }
  }

  lemma DivShift(n: int, k: int)
    requires k > 0
    ensures (n - k) / k == n / k - 1
  {
    var q, r := n / k, n % k;
    assert n - k == (q - 1) * k + r;
    var e := (n - k) / k - (q - 1);
    assert e * k == r - (n - k) % k;
    assert e > 0 ==> e * k >= k;
    assert e < 0 ==> e * k <= -k;
  }

  lemma DivSmall(n: int, k: int)
    requires 0 <= n < k
    ensures n / k == 0
  {
  }

  /** The table after every timer due by `now` has fired. */
  function Advanced(t: Timer, now: int): Option<Timer> {
    if t.deadline > now then Some(t)
    else if t.interval > 0 then Some(Timer(t.deadline + |Due(t, now)| * t.interval, t.interval))
    else None
  }

  /** The deadlines at which `id` fired. */
  function TimesOf(fired: seq<Fire>, id: nat): seq<int> {
    if fired == [] then []
    else
      var last := fired[|fired| - 1];
      TimesOf(fired[..|fired| - 1], id) + if last.id == id then [last.deadline] else []
  }

  function DueOf(table: Table, now: int, id: nat): seq<int> {
    if id in table then Due(table[id], now) else []
  }

  /** Firings in nondecreasing deadline order. */
  predicate Ordered(fired: seq<Fire>) {
    forall i, j :: 0 <= i < j < |fired| ==> fired[i].deadline <= fired[j].deadline
  }

  // ---------- Work left in a heap ----------

  function Weight(e: Entry, now: int): nat {
    1 + if e.deadline <= now then now - e.deadline + 1 else 0
  }

  function Load(h: seq<Entry>, now: int): nat {
    if h == [] then 0 else Weight(h[0], now) + Load(h[1..], now)
  }

  lemma {:induction false} LoadRemove(h: seq<Entry>, k: nat, now: int)
    requires k < |h|
    ensures Load(h, now) == Weight(h[k], now) + Load(h[..k] + h[k + 1..], now)
  {
    if k == 0 {
      assert h[..0] + h[1..] == h[1..];
    } else {
      LoadRemove(h[1..], k - 1, now);
      var rest := h[..k] + h[k + 1..];
      assert rest[0] == h[0] && rest[1..] == h[1..][..k - 1] + h[1..][k..];
    }
  }

  /** The work left depends on the entries only, not on their arrangement. */
  lemma {:induction false} LoadOfPermutation(g: seq<Entry>, h: seq<Entry>, now: int)
    requires multiset(g) == multiset(h)
    ensures Load(g, now) == Load(h, now)
  {
    if g == [] {
      assert |multiset(h)| == 0;
    } else {
      assert g[0] in multiset(h);
      var k :| 0 <= k < |h| && h[k] == g[0];
      LoadRemove(h, k, now);
      assert g == [g[0]] + g[1..];
      assert multiset(g) == multiset{g[0]} + multiset(g[1..]);
      assert h == h[..k] + [h[k]] + h[k + 1..];
      assert multiset(h) == multiset(h[..k]) + multiset{h[k]} + multiset(h[k + 1..]);
      assert multiset(g[1..]) == multiset(g) - multiset{g[0]};
      assert multiset(h[..k] + h[k + 1..]) == multiset(h) - multiset{h[k]};
      LoadOfPermutation(g[1..], h[..k] + h[k + 1..], now);
    }
  }

  ghost predicate NoneDue(table: Table, now: int) {
    forall id :: id in table ==> table[id].deadline > now
  }

  function Lookup(table: Table, id: nat): Option<Timer> {
    if id in table then Some(table[id]) else None
  }

  function AdvancedOf(table: Table, now: int, id: nat): Option<Timer> {
    if id in table then Advanced(table[id], now) else None
  }

  /** The table once `e` has fired. */
  function After(table: Table, e: Entry): Table {
    if e.interval > 0 && e.id in table then table[e.id := Timer(e.deadline + e.interval, e.interval)]
    else table - {e.id}
  }

  ghost predicate Late(fired: seq<Fire>, table: Table) {
    fired != [] ==> Earliest(table, fired[|fired| - 1].deadline)
  }

  /** What has fired and what is still due add up to what was due at the start. */
  ghost predicate Progress(start: Table, table: Table, fired: seq<Fire>, now: int) {
    forall id ::
      && TimesOf(fired, id) + DueOf(table, now, id) == DueOf(start, now, id)
      && AdvancedOf(table, now, id) == AdvancedOf(start, now, id)
  }

  lemma TimesOfMore(fired: seq<Fire>, f: Fire, id: nat)
    ensures TimesOf(fired + [f], id) == TimesOf(fired, id) + if f.id == id then [f.deadline] else []
  {
    var more := fired + [f];
    assert more[..|more| - 1] == fired;
  }

  lemma Regroup(a: seq<int>, b: seq<int>, c: seq<int>)
    ensures a + b + c == a + (b + c)
  {
  }

  lemma FireOne(table: Table, e: Entry, now: int, id: nat)
    requires e.id in table && Stored(table, e.id) == e && e.deadline <= now
    ensures DueOf(table, now, id) == (if id == e.id then [e.deadline] else []) + DueOf(After(table, e), now, id)
    ensures AdvancedOf(table, now, id) == AdvancedOf(After(table, e), now, id)
  {
    if id == e.id && e.interval > 0 {
      var next := Timer(e.deadline + e.interval, e.interval);
      assert (|Due(next, now)| + 1) * e.interval == |Due(next, now)| * e.interval + e.interval;
    }
  }

  lemma FireStepOf(start: Table, table: Table, fired: seq<Fire>, e: Entry, now: int, id: nat)
    requires TimesOf(fired, id) + DueOf(table, now, id) == DueOf(start, now, id)
    requires e.id in table && Stored(table, e.id) == e && e.deadline <= now
    ensures TimesOf(fired + [Fire(e.id, e.deadline)], id) + DueOf(After(table, e), now, id) == DueOf(start, now, id)
  {
    FireOne(table, e, now, id);
    TimesOfMore(fired, Fire(e.id, e.deadline), id);
    Regroup(TimesOf(fired, id), if id == e.id then [e.deadline] else [], DueOf(After(table, e), now, id));
  }

  lemma OrderedStep(table: Table, fired: seq<Fire>, e: Entry)
    requires Ordered(fired) && Late(fired, table) && e.id in table && Stored(table, e.id) == e
    requires Earliest(table, e.deadline)
    ensures Ordered(fired + [Fire(e.id, e.deadline)]) && Late(fired + [Fire(e.id, e.deadline)], After(table, e))
  {
  }

  lemma FireStep(start: Table, table: Table, fired: seq<Fire>, e: Entry, now: int)
    requires Progress(start, table, fired, now)
    requires e.id in table && Stored(table, e.id) == e && e.deadline <= now
    ensures Progress(start, After(table, e), fired + [Fire(e.id, e.deadline)], now)
  {
    forall id
      ensures TimesOf(fired + [Fire(e.id, e.deadline)], id) + DueOf(After(table, e), now, id) == DueOf(start, now, id)
      ensures AdvancedOf(After(table, e), now, id) == AdvancedOf(start, now, id)
    {
      FireStepOf(start, table, fired, e, now, id);
      FireOne(table, e, now, id);
    }
  }

  lemma Finished(start: Table, table: Table, fired: seq<Fire>, now: int)
    requires Progress(start, table, fired, now) && NoneDue(table, now)
    ensures forall id :: TimesOf(fired, id) == DueOf(start, now, id)
    ensures forall id :: Lookup(table, id) == AdvancedOf(start, now, id)
  {
    forall id
      ensures TimesOf(fired, id) == DueOf(start, now, id)
      ensures Lookup(table, id) == AdvancedOf(start, now, id)
    {
      assert TimesOf(fired, id) + DueOf(table, now, id) == DueOf(start, now, id);
    }
  }

  lemma LoadOfPop(h: seq<Entry>, top: Entry, rest: seq<Entry>, now: int)
    requires multiset(h) == multiset(rest) + multiset{top}
    ensures Load(h, now) == Weight(top, now) + Load(rest, now)
  {
    assert multiset([top] + rest) == multiset(h);
    LoadOfPermutation(h, [top] + rest, now);
    assert ([top] + rest)[1..] == rest;
  }

  // ---------- Firing as a machine over the table ----------

  /** The timers and the next id to be given out. */
  datatype Plain = Plain(table: Table, next: nat)

  /** What one action of a callback does to the timers. */
  function Act(p: Plain, action: Action): Plain {
    match action
    case StartTimer(deadline, interval) => Plain(p.table[p.next := Timer(deadline, interval)], p.next + 1)
    case CancelTimer(id) => Plain(p.table - {id}, p.next)
  }

  /** What the first `n` actions of a callback do. */
  function ActAll(p: Plain, actions: seq<Action>, n: nat): Plain
    requires n <= |actions|
  {
    if n == 0 then p else Act(ActAll(p, actions, n - 1), actions[n - 1])
  }

  /** What happens when timer `id` fires and its callback performs `actions`. */
  function Play(p: Plain, id: nat, actions: seq<Action>): Plain
    requires id in p.table
  {
    var t := p.table[id];
    var after := ActAll(p, actions, |actions|);
    if t.interval > 0 && id in after.table
    then after.(table := after.table[id := Timer(t.deadline + t.interval, t.interval)])
    else after.(table := after.table - {id})
  }

  /** Playing a firing is acting and then advancing the table. */
  lemma PlayIsAfter(p: Plain, e: Entry, actions: seq<Action>)
    requires e.id in p.table && Stored(p.table, e.id) == e
    ensures var after := ActAll(p, actions, |actions|);
            Play(p, e.id, actions) == Plain(After(after.table, e), after.next)
  {
  }

  /** Firings, oldest first. */
  datatype Firings = NoFire | Fires(before: Firings, id: nat)

  function Count(f: Firings): nat {
    if f.NoFire? then 0 else Count(f.before) + 1
  }

  /** What the k-th callback performs; a callback beyond the script does nothing. */
  function Part(script: seq<seq<Action>>, k: nat): seq<Action> {
    if k < |script| then script[k] else []
  }

  /** The timers after the firings, each of a timer that was there. */
  function Played(start: Plain, script: seq<seq<Action>>, f: Firings): Option<Plain> {
    if f.NoFire? then Some(start)
    else
      var before := Played(start, script, f.before);
      if before.None? || f.id !in before.value.table then None
      else Some(Play(before.value, f.id, Part(script, Count(f.before))))
  }

  /** Each firing is that of the earliest timer there was, and that one was due. */
  ghost predicate InTurn(start: Plain, script: seq<seq<Action>>, now: int, f: Firings) {
    f.Fires? ==>
      && InTurn(start, script, now, f.before)
      && var before := Played(start, script, f.before);
         before.Some? && FirstDue(before.value.table, now, f.id)
  }

  ghost predicate FirstDue(table: Table, now: int, id: nat) {
    id in table && table[id].deadline <= now && Earliest(table, table[id].deadline)
  }

  // ---------- The heap ----------

  /** The stored entries agree with the table; a timer in `hole` is being fired and is not stored. */
  ghost predicate Consistent(entries: set<Entry>, table: Table, nextId: nat, hole: set<nat>) {
    && (forall e :: e in entries ==> e.id < nextId && e.id !in hole)
    && (forall e, f :: e in entries && f in entries && e.id == f.id ==> e == f)
    && (forall e :: e in entries && e.id in table ==> table[e.id] == Timer(e.deadline, e.interval))
    && (forall id :: id in table ==> id < nextId && (id in hole || Stored(table, id) in entries))
  }

  ghost function Stored(table: Table, id: nat): Entry
    requires id in table
  {
    Entry(id, table[id].deadline, table[id].interval)
  }

  lemma ConsistentWith(entries: set<Entry>, table: Table, id: nat, t: Timer, hole: set<nat>)
    requires Consistent(entries, table, id, hole) && id !in hole
    ensures Consistent(entries + {Entry(id, t.deadline, t.interval)}, table[id := t], id + 1, hole)
    ensures Entry(id, t.deadline, t.interval) !in entries && id !in table
  {
  }

  lemma ConsistentWithout(entries: set<Entry>, table: Table, nextId: nat, e: Entry)
    requires Consistent(entries, table, nextId, {}) && e in entries
    ensures Consistent(entries - {e}, table, nextId, {e.id})
  {
  }

  lemma ConsistentAgain(entries: set<Entry>, table: Table, nextId: nat, e: Entry)
    requires Consistent(entries, table, nextId, {e.id}) && e.id in table && e.interval > 0
    ensures Consistent(entries + {Entry(e.id, e.deadline + e.interval, e.interval)}, After(table, e), nextId, {})
    ensures Entry(e.id, e.deadline + e.interval, e.interval) !in entries
  {
  }

  /** No timer of the table is earlier. */
  ghost predicate Earliest(table: Table, deadline: int) {
    forall id :: id in table ==> deadline <= table[id].deadline
  }

  class Heap {
    var heap: seq<Entry>
    var timers: set<nat>
    var nextId: nat

    ghost var entries: set<Entry>
    ghost var table: Table
    ghost var log: Log

    ghost predicate Shape()
      reads this`heap, this`entries
    {
      IsHeap(heap) && multiset(heap) == multiset(entries)
    }

    ghost predicate Recorded()
      reads this`log, this`timers, this`nextId
    {
      Lawful(log) && Alive(log) == timers && forall id :: id in Seen(log) ==> id < nextId
    }

    ghost predicate Holds(hole: set<nat>)
      reads this
    {
      Shape() && Recorded() && timers == table.Keys && Consistent(entries, table, nextId, hole)
    }

    ghost predicate Valid()
      reads this
    {
      Holds({})
    }

    constructor ()
      ensures Valid() && table == map[] && log == Fresh
    {
      heap, timers, nextId := [], {}, 1;
      entries, table, log := {}, map[], Fresh;
    }

    method Push(e: Entry, ghost now: int)
      requires Shape() && e !in entries
      modifies this`heap, this`entries
      ensures Shape() && entries == old(entries) + {e}
      ensures Load(heap, now) == Load(old(heap), now) + Weight(e, now)
    {
      heap := PushHeap(heap, e);
      entries := entries + {e};
      LoadOfPop(heap, e, old(heap), now);
    }

    method Pop(ghost now: int) returns (top: Entry)
      requires Shape() && heap != []
      modifies this`heap, this`entries
      ensures Shape() && top == old(heap[0]) && |heap| < |old(heap)| && top in old(entries) && entries == old(entries) - {top}
      ensures Load(old(heap), now) == Load(heap, now) + Weight(top, now)
    {
      top, heap := PopHeap(heap);
      assert top in multiset(old(heap));
      LoadOfPop(old(heap), top, heap, now);
      assert multiset(heap) == multiset(old(heap)) - multiset{top} == multiset(entries - {top});
      entries := entries - {top};
    }

    lemma Front()
      requires Shape()
      ensures heap == [] <==> entries == {}
      ensures heap != [] ==> heap[0] in entries && forall e :: e in entries ==> heap[0].deadline <= e.deadline
    {
      if heap != [] {
        assert heap[0] in multiset(heap);
      }
      forall e | e in entries
        ensures heap != [] && heap[0].deadline <= e.deadline
      {
        assert e in multiset(heap);
        var i :| 0 <= i < |heap| && heap[i] == e;
        FrontIsLeast(heap, i);
      }
    }

    method Enroll() returns (id: nat)
      requires Recorded()
      modifies this`timers, this`nextId, this`log
      ensures Recorded() && id == old(nextId) && nextId == id + 1
      ensures timers == old(timers) + {id} && log == Started(old(log), id)
    {
      id := nextId;
      nextId := nextId + 1;
      timers := timers + {id};
      log := Started(log, id);
    }

    /** start(): a new id for a new timer. */
    method Start(deadline: int, interval: int, ghost hole: set<nat>) returns (id: nat)
      requires Holds(hole) && forall i :: i in hole ==> i < nextId
      modifies this
      ensures Holds(hole) && id == old(nextId) && nextId == id + 1 && id !in old(table)
      ensures table == old(table)[id := Timer(deadline, interval)]
      ensures log == Started(old(log), id)
    {
      ConsistentWith(entries, table, nextId, Timer(deadline, interval), hole);
      id := Enroll();
      Push(Entry(id, deadline, interval), 0);
      table := table[id := Timer(deadline, interval)];
    }

    /** cancel(): forgets the timer now and its entry later; a no-op for an id that is not live. */
    method Cancel(id: nat, ghost hole: set<nat>)
      requires Holds(hole)
      modifies this`timers, this`table, this`log
      ensures Holds(hole) && table == old(table) - {id} && log == Retired(old(log), id)
    {
      timers := timers - {id};
      table := table - {id};
      log := Retired(log, id);
    }

    /** Drop cancelled entries from the front; true when a live timer is left there. */
    method DiscardCancelledTop(ghost now: int) returns (any: bool)
      requires Valid()
      modifies this`heap, this`entries
      ensures Valid() && any == (heap != []) && any == (table != map[])
      ensures any ==> heap[0].id in table && Stored(table, heap[0].id) == heap[0] && Earliest(table, heap[0].deadline)
      ensures Load(heap, now) <= Load(old(heap), now)
    {
      while heap != [] && heap[0].id !in timers
        invariant Valid()
        invariant Load(heap, now) <= Load(old(heap), now)
        decreases |heap|
      {
        var top := Pop(now);
      }
      any := heap != [];
      Front();
    }

    /** next_deadline(): the least deadline of a live timer. */
    method NextDeadline() returns (r: Option<int>)
      requires Valid()
      modifies this`heap, this`entries
      ensures Valid()
      ensures r.None? <==> table == map[]
      ensures r.Some? ==> Earliest(table, r.value) && exists id :: id in table && table[id].deadline == r.value
    {
      var any := DiscardCancelledTop(0);
      if !any {
        return None;
      }
      assert table[heap[0].id].deadline == heap[0].deadline;
      return Some(heap[0].deadline);
    }

    // ---------- Firing ----------

    /** The next timer to fire, taken out of the heap; it stays in the table while its callback runs. */
    method TakeDue(now: int) returns (next: Option<Entry>)
      requires Valid()
      modifies this`heap, this`entries, this`log
      ensures next.None? ==> Valid() && NoneDue(table, now) && log == old(log)
      ensures next.Some? ==> Firing(next.value) && log == Fired(old(log), next.value.id)
      ensures next.Some? ==> next.value.id in table && next.value.deadline <= now && Earliest(table, next.value.deadline)
      ensures next.Some? ==> Load(heap, now) + Weight(next.value, now) <= Load(old(heap), now)
      ensures next.Some? ==> FirstDue(table, now, next.value.id)
    {
      var any := DiscardCancelledTop(now);
      if !any || heap[0].deadline > now {
        return None;
      }
      ConsistentWithout(entries, table, nextId, heap[0]);
      var e := Pop(now);
      log := Fired(log, e.id);
      return Some(e);
    }

    /** The state in which the callback of `e` runs. */
    ghost predicate Firing(e: Entry)
      reads this
    {
      Holds({e.id}) && e.id < nextId && (e.id in table ==> Stored(table, e.id) == e)
    }

    /** After the callback: a repeating timer that is still live is armed again from its own deadline. */
    method Rearm(e: Entry, ghost now: int)
      requires Firing(e) && e.deadline <= now
      modifies this
      ensures Valid() && table == After(old(table), e) && nextId == old(nextId)
      ensures log == if e.interval > 0 && e.id in old(table) then old(log) else Retired(old(log), e.id)
      ensures Load(heap, now) < Load(old(heap), now) + Weight(e, now)
    {
      if e.interval > 0 && e.id in timers {
        ConsistentAgain(entries, table, nextId, e);
        Push(Entry(e.id, e.deadline + e.interval, e.interval), now);
        table := After(table, e);
      } else {
        Cancel(e.id, {e.id});
      }
    }

    /** From the end of one callback to the start of the next. */
    method Proceed(e: Entry, now: int) returns (next: Option<Entry>)
      requires Firing(e) && e.deadline <= now
      modifies this
      ensures table == After(old(table), e) && nextId == old(nextId)
      ensures next.Some? ==> FirstDue(table, now, next.value.id)
      ensures next.None? ==> Valid() && NoneDue(table, now)
      ensures next.Some? ==> Firing(next.value)
      ensures next.Some? ==> next.value.id in table && next.value.deadline <= now && Earliest(table, next.value.deadline)
      ensures next.Some? ==> Load(heap, now) + Weight(next.value, now) < Load(old(heap), now) + Weight(e, now)
      ensures Continues(log, old(log))
    {
      Rearm(e, now);
      next := TakeDue(now);
    }

    /** fire_expired() with callbacks that leave the heap alone. */
    method FireExpired(now: int) returns (fired: seq<Fire>)
      requires Valid()
      modifies this
      ensures Valid() && Ordered(fired)
      ensures forall id :: TimesOf(fired, id) == DueOf(old(table), now, id)
      ensures forall id :: Lookup(table, id) == AdvancedOf(old(table), now, id)
    {
      fired := [];
      var next := TakeDue(now);
      while next.Some?
        invariant next.None? ==> Valid() && NoneDue(table, now)
        invariant next.Some? ==> Firing(next.value) && next.value.id in table && next.value.deadline <= now
        invariant next.Some? ==> Earliest(table, next.value.deadline)
        invariant Progress(old(table), table, fired, now) && Ordered(fired) && Late(fired, table)
        decreases if next.Some? then Load(heap, now) + Weight(next.value, now) else 0, next.Some?
      {
        FireStep(old(table), table, fired, next.value, now);
        OrderedStep(table, fired, next.value);
        fired := fired + [Fire(next.value.id, next.value.deadline)];
        next := Proceed(next.value, now);
      }
      Finished(old(table), table, fired, now);
    }

    /** The timers as the table machine sees them. */
    ghost function Timers(): Plain
      reads this
    {
      Plain(table, nextId)
    }

    method StartOther(e: Entry, deadline: int, interval: int)
      requires Firing(e)
      modifies this
      ensures Firing(e) && log == Started(old(log), old(nextId))
      ensures Timers() == Act(old(Timers()), StartTimer(deadline, interval))
    {
      var _ := Start(deadline, interval, {e.id});
    }

    method CancelOne(e: Entry, id: nat)
      requires Firing(e)
      modifies this
      ensures Firing(e) && log == Retired(old(log), id)
      ensures Timers() == Act(old(Timers()), CancelTimer(id))
    {
      Cancel(id, {e.id});
    }

    /** One action of the callback of `e`. */
    method Perform(e: Entry, action: Action)
      requires Firing(e)
      modifies this
      ensures Firing(e)
      ensures log == if action.StartTimer? then Started(old(log), old(nextId)) else Retired(old(log), action.id)
      ensures Timers() == Act(old(Timers()), action)
    {
      match action {
        case StartTimer(deadline, interval) => StartOther(e, deadline, interval);
        case CancelTimer(id) => CancelOne(e, id);
      }
    }

    /** What a callback does, one action after another, while timer `e` is being fired. */
    method RunCallback(e: Entry, actions: seq<Action>)
      requires Firing(e)
      modifies this
      ensures Firing(e) && Continues(log, old(log))
      ensures log == Acted(old(log), old(nextId), actions, |actions|)
      ensures Timers() == ActAll(old(Timers()), actions, |actions|)
      ensures actions == [] ==> heap == old(heap)
    {
      for i := 0 to |actions|
        invariant Firing(e) && Continues(log, old(log))
        invariant log == Acted(old(log), old(nextId), actions, i) && nextId == old(nextId) + Starts(actions, i)
        invariant Timers() == ActAll(old(Timers()), actions, i)
        invariant i == 0 ==> heap == old(heap)
      {
        Perform(e, actions[i]);
      }
    }

    /** The callback of `e`, its re-arming, and the next timer to fire. */
    method FireOnce(e: Entry, actions: seq<Action>, now: int) returns (next: Option<Entry>)
      requires Firing(e) && e.deadline <= now && e.id in table
      modifies this
      ensures Timers() == Play(old(Timers()), e.id, actions) && Continues(log, old(log))
      ensures next.None? ==> Valid() && NoneDue(table, now)
      ensures next.Some? ==> Firing(next.value) && next.value.deadline <= now && FirstDue(table, now, next.value.id)
      ensures next.Some? && actions == [] ==>
                Load(heap, now) + Weight(next.value, now) < Load(old(heap), now) + Weight(e, now)
    {
      PlayIsAfter(Timers(), e, actions);
      RunCallback(e, actions);
      ghost var before := log;
      next := Proceed(e, now);
      ContinuesOn(log, before, old(log));
    }

    /**
     fire_expired() with callbacks that start and cancel timers: the k-th firing
     performs `script[k]`. Each firing is that of the earliest due timer of the
     table, and the table is left as those firings leave it, with nothing due.
     */
    method FireExpiredWith(now: int, script: seq<seq<Action>>) returns (fired: Firings)
      requires Valid()
      modifies this
      ensures Valid() && NoneDue(table, now) && Continues(log, old(log))
      ensures InTurn(old(Timers()), script, now, fired)
      ensures Played(old(Timers()), script, fired) == Some(Timers())
    {
      fired := NoFire;
      ghost var start := Timers();
      var k := 0;
      var next := TakeDue(now);
      while next.Some?
        invariant k == Count(fired) && Continues(log, old(log))
        invariant InTurn(start, script, now, fired) && Played(start, script, fired) == Some(Timers())
        invariant next.None? ==> Valid() && NoneDue(table, now)
        invariant next.Some? ==>
                    Firing(next.value) && next.value.deadline <= now && FirstDue(table, now, next.value.id)
        decreases if k < |script| then |script| - k else 0,
                  if next.Some? then Load(heap, now) + Weight(next.value, now) else 0, next.Some?
      {
        var e, actions := next.value, Part(script, k);
        ghost var before := log;
        next := FireOnce(e, actions, now);
        ContinuesOn(log, before, old(log));
        fired := Fires(fired, e.id);
        k := k + 1;
      }
    }
  }
}
