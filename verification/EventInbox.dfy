/**
 The event loop's three inboxes: producers on any thread lock, wake the loop
 and only then insert; the loop's thread polls, swaps each queue out under its
 lock and works through the swapped items. Every action below is one atomic
 step, and a behaviour is any interleaving of them.
 */
module EventInbox {
  import opened Wrappers

  datatype Kind = Tasks | Events | Deletes

  /** The mutex of an inbox and how far the producer inside it has come. */
  datatype Lock = Free | Held(item: int, woken: bool)

  /**
   `local` is what the loop has swapped out; `posted` and `done` record accepted
   and finished items, and `worked` whether each finished item was worked on or
   thrown away.
   */
  datatype Inbox =
    Inbox(lock: Lock, queue: seq<int>, local: seq<int>, posted: seq<int>, done: seq<int>, worked: seq<bool>)

  datatype Phase =
    | Idle                  // not inside run()
    | Entering              // at the start of process_events()
    | Polling               // about to block
    | Dispatching           // watchers and timers
    | Draining(kind: Kind)  // about to swap
    | Working(kind: Kind)   // working through the swapped items
    | FinalDraining(kind: Kind)
    | FinalWorking(kind: Kind)
    | Discarding            // about to throw undelivered events away

  datatype State = State(tasks: Inbox, events: Inbox, deletes: Inbox,
                         wake: bool, running: bool, wasRunning: bool, phase: Phase)

  datatype Action =
    // any producer
    | Acquire(kind: Kind, item: int)
    | Wake(kind: Kind, ok: bool)
    | Insert(kind: Kind)
    | RequestQuit
    // the loop's thread
    | Run
    | Enter
    | Poll(sawWake: bool, failed: bool)
    | Dispatched
    | Swap
    | WorkOne(quits: bool)
    | WorkDone

  function Box(s: State, k: Kind): Inbox {
    match k
    case Tasks => s.tasks
    case Events => s.events
    case Deletes => s.deletes
  }

  function With(s: State, k: Kind, b: Inbox): State {
    match k
    case Tasks => s.(tasks := b)
    case Events => s.(events := b)
    case Deletes => s.(deletes := b)
  }

  const EMPTY := Inbox(Free, [], [], [], [], [])
  const START := State(EMPTY, EMPTY, EMPTY, false, false, false, Idle)

  // ---------- Steps ----------

  function ProducerStep(s: State, a: Action): Option<State> {
    match a
    case Acquire(k, item) =>
      if Box(s, k).lock.Free? then Some(With(s, k, Box(s, k).(lock := Held(item, false)))) else None
    case Wake(k, ok) =>
      var b := Box(s, k);
      if b.lock.Held? && !b.lock.woken then
        if ok then Some(With(s, k, b.(lock := Held(b.lock.item, true))).(wake := true))
        else Some(With(s, k, b.(lock := Free)))  // the post fails
      else None
    case Insert(k) =>
      var b := Box(s, k);
      if b.lock.Held? && b.lock.woken then
        Some(With(s, k, b.(lock := Free, queue := b.queue + [b.lock.item], posted := b.posted + [b.lock.item])))
      else None
    case RequestQuit => Some(s.(running := false))
    case _ => None
  }

  /** Where the loop goes once the items swapped out of `k` are finished. */
  function AfterWork(s: State, k: Kind): Phase {
    match k
    case Tasks => Draining(if s.wasRunning && !s.running then Deletes else Events)
    case Events => Draining(Deletes)
    case Deletes => if s.running then Entering else FinalDraining(Tasks)
  }

  function SwapOut(s: State, k: Kind, next: Phase): Option<State> {
    var b := Box(s, k);
    if b.lock.Free? then Some(With(s, k, b.(local := b.queue, queue := [])).(phase := next)) else None
  }

  /** Everything still queued is thrown away. */
  function Emptied(b: Inbox): Inbox {
    b.(queue := [], done := b.done + b.queue, worked := b.worked + seq(|b.queue|, i => false))
  }

  function Discard(s: State): Option<State> {
    if s.events.lock.Free? then Some(s.(events := Emptied(s.events), phase := Idle)) else None
  }

  /** The first item swapped out is finished. */
  function WorkedOff(b: Inbox): Inbox
    requires b.local != []
  {
    b.(local := b.local[1..], done := b.done + [b.local[0]], worked := b.worked + [true])
  }

  function Work(s: State, k: Kind, quits: bool): Option<State> {
    var b := Box(s, k);
    if b.local == [] then None
    else
      var t := With(s, k, WorkedOff(b));
      Some(if quits then t.(running := false) else t)
  }

  /** The loop's moves that touch no inbox. */
  function Move(s: State, a: Action): Option<State> {
    match (s.phase, a)
    case (Idle, Run) => Some(s.(running := true, phase := Entering))
    case (Entering, Enter) => Some(s.(wasRunning := s.running, phase := Polling))
    case (Polling, Poll(sawWake, failed)) =>
      if failed then Some(s.(running := false, phase := FinalDraining(Tasks)))
      else Some(s.(wake := s.wake && !sawWake, phase := Dispatching))
    case (Dispatching, Dispatched) => Some(s.(phase := Draining(Tasks)))
    case (Working(k), WorkDone) => if Box(s, k).local == [] then Some(s.(phase := AfterWork(s, k))) else None
    case (FinalWorking(k), WorkDone) =>
      if Box(s, k).local == [] then Some(s.(phase := if k == Tasks then FinalDraining(Deletes) else Discarding))
      else None
    case _ => None
  }

  function LoopStep(s: State, a: Action): Option<State> {
    match (s.phase, a)
    case (Draining(k), Swap) => SwapOut(s, k, Working(k))
    case (FinalDraining(k), Swap) => SwapOut(s, k, FinalWorking(k))
    case (Discarding, Swap) => Discard(s)
    case (Working(k), WorkOne(quits)) => Work(s, k, quits)
    case (FinalWorking(k), WorkOne(quits)) => Work(s, k, quits)
    case _ => Move(s, a)
  }

  function Step(s: State, a: Action): Option<State> {
    var p := ProducerStep(s, a);
    if p.Some? then p else LoopStep(s, a)
  }

  /** The state after a behaviour, if every action of it was possible. */
  function Execute(s: State, behaviour: seq<Action>): Option<State> {
    if behaviour == [] then Some(s)
    else
      var before := Execute(s, behaviour[..|behaviour| - 1]);
      if before.None? then None else Step(before.value, behaviour[|behaviour| - 1])
  }

  // ---------- What every step keeps ----------

  function Order(k: Kind): nat {
    match k
    case Tasks => 0
    case Events => 1
    case Deletes => 2
  }

  /** The loop will swap (or discard) this inbox before it next blocks or leaves run(). */
  predicate DrainAhead(s: State, k: Kind) {
    match s.phase
    case Idle | Entering | Polling => false
    case Dispatching => true
    case Draining(j) => Order(k) >= Order(j) || (j == Deletes && !s.running)
    case Working(j) => Order(k) > Order(j) || (j == Deletes && !s.running)
    case FinalDraining(j) => j == Tasks || k != Tasks
    case FinalWorking(j) => if j == Tasks then k != Tasks else k == Events
    case Discarding => k == Events
  }

  predicate InWork(s: State, k: Kind) {
    s.phase == Working(k) || s.phase == FinalWorking(k)
  }

  predicate Conserved(b: Inbox) {
    b.posted == b.done + b.local + b.queue
  }

  /** Nothing is lost or reordered, and whatever was signalled is still signalled or about to be drained. */
  predicate Fits(b: Inbox, wake: bool, ahead: bool, inWork: bool) {
    && Conserved(b)
    && (b.queue != [] || (b.lock.Held? && b.lock.woken) ==> wake || ahead)
    && (b.local != [] ==> inWork)
  }

  predicate BoxInv(s: State, k: Kind) {
    Fits(Box(s, k), s.wake, DrainAhead(s, k), InWork(s, k))
  }

  predicate PhaseInv(s: State) {
    && (s.phase.FinalDraining? || s.phase.FinalWorking? ==> s.phase.kind != Events)
    && (s.phase.FinalDraining? || s.phase.FinalWorking? || s.phase.Discarding? ==> !s.running)
  }

  predicate Inv(s: State) {
    PhaseInv(s) && BoxInv(s, Tasks) && BoxInv(s, Events) && BoxInv(s, Deletes)
  }

  lemma Elsewhere(s: State, j: Kind, b: Inbox, k: Kind)
    ensures Box(With(s, j, b), k) == if k == j then b else Box(s, k)
    ensures With(s, j, b).wake == s.wake && With(s, j, b).running == s.running
    ensures With(s, j, b).wasRunning == s.wasRunning && With(s, j, b).phase == s.phase
  {
  }

  lemma InsertConserves(b: Inbox, item: int)
    requires Conserved(b)
    ensures Conserved(b.(lock := Free, queue := b.queue + [item], posted := b.posted + [item]))
  {
    assert b.done + b.local + (b.queue + [item]) == b.done + b.local + b.queue + [item];
  }

  lemma ProducerKeepsInv(s: State, a: Action, k: Kind)
    requires Inv(s) && ProducerStep(s, a).Some?
    ensures BoxInv(ProducerStep(s, a).value, k) && PhaseInv(ProducerStep(s, a).value)
  {
    var t := ProducerStep(s, a).value;
    assert BoxInv(s, k);
    match a {
      case Acquire(j, item) =>
        Elsewhere(s, j, Box(s, j).(lock := Held(item, false)), k);
      case Wake(j, true) =>
        Elsewhere(s, j, Box(s, j).(lock := Held(Box(s, j).lock.item, true)), k);
      case Wake(j, false) =>
        Elsewhere(s, j, Box(s, j).(lock := Free), k);
      case Insert(j) =>
        var b := Box(s, j);
        assert Conserved(b) by { assert BoxInv(s, j); }
        InsertConserves(b, b.lock.item);
        Elsewhere(s, j, b.(lock := Free, queue := b.queue + [b.lock.item], posted := b.posted + [b.lock.item]), k);
      case RequestQuit =>
    }
  }

  lemma SwapKeepsInv(s: State, j: Kind, next: Phase, k: Kind)
    requires Inv(s) && SwapOut(s, j, next).Some?
    requires (s.phase == Draining(j) && next == Working(j)) || (s.phase == FinalDraining(j) && next == FinalWorking(j))
    ensures BoxInv(SwapOut(s, j, next).value, k) && PhaseInv(SwapOut(s, j, next).value)
  {
    assert BoxInv(s, k) && BoxInv(s, j);
    var b := Box(s, j);
    assert b.local == [];
    assert b.done + b.local + b.queue == b.done + b.queue + [];
    Elsewhere(s, j, b.(local := b.queue, queue := []), k);
  }

  lemma WorkConserves(b: Inbox)
    requires Conserved(b) && b.local != []
    ensures Conserved(WorkedOff(b))
  {
    assert b.done + [b.local[0]] + b.local[1..] == b.done + b.local;
  }

  lemma WorkKeepsInv(s: State, j: Kind, quits: bool, k: Kind)
    requires Inv(s) && InWork(s, j) && Work(s, j, quits).Some?
    ensures BoxInv(Work(s, j, quits).value, k) && PhaseInv(Work(s, j, quits).value)
  {
    assert BoxInv(s, k) && BoxInv(s, j);
    var b := Box(s, j);
    WorkConserves(b);
    Elsewhere(s, j, WorkedOff(b), k);
  }

  lemma DiscardKeepsInv(s: State, k: Kind)
    requires Inv(s) && s.phase == Discarding && Discard(s).Some?
    ensures BoxInv(Discard(s).value, k) && PhaseInv(Discard(s).value)
  {
    assert BoxInv(s, k);
    assert s.events.done + s.events.local + s.events.queue == s.events.done + s.events.queue + [] + [];
  }

  lemma MoveKeepsInv(s: State, a: Action, k: Kind)
    requires Inv(s) && Move(s, a).Some?
    ensures BoxInv(Move(s, a).value, k) && PhaseInv(Move(s, a).value)
  {
    assert BoxInv(s, k);
    assert Box(Move(s, a).value, k) == Box(s, k);
  }

  lemma LoopKeepsInv(s: State, a: Action, k: Kind)
    requires Inv(s) && LoopStep(s, a).Some?
    ensures BoxInv(LoopStep(s, a).value, k) && PhaseInv(LoopStep(s, a).value)
  {
    match (s.phase, a) {
      case (Draining(j), Swap) => SwapKeepsInv(s, j, Working(j), k);
      case (FinalDraining(j), Swap) => SwapKeepsInv(s, j, FinalWorking(j), k);
      case (Discarding, Swap) => DiscardKeepsInv(s, k);
      case (Working(j), WorkOne(quits)) => WorkKeepsInv(s, j, quits, k);
      case (FinalWorking(j), WorkOne(quits)) => WorkKeepsInv(s, j, quits, k);
      case _ => MoveKeepsInv(s, a, k);
    }
  }

  lemma StepKeepsInv(s: State, a: Action)
    requires Inv(s) && Step(s, a).Some?
    ensures Inv(Step(s, a).value)
  {
    forall k: Kind
      ensures BoxInv(Step(s, a).value, k) && PhaseInv(Step(s, a).value)
    {
      if ProducerStep(s, a).Some? {
        ProducerKeepsInv(s, a, k);
      } else {
        LoopKeepsInv(s, a, k);
      }
    }
  }

  // ---------- Whole behaviours ----------

  lemma {:induction false} EveryBehaviour(s: State, behaviour: seq<Action>)
    requires Inv(s) && Execute(s, behaviour).Some?
    ensures Inv(Execute(s, behaviour).value)
  {
    if behaviour != [] {
      var earlier := behaviour[..|behaviour| - 1];
      EveryBehaviour(s, earlier);
      StepKeepsInv(Execute(s, earlier).value, behaviour[|behaviour| - 1]);
    }
  }

  ghost predicate Reachable(s: State) {
    exists behaviour :: Execute(START, behaviour) == Some(s)
  }

  lemma ReachableInv(s: State)
    requires Reachable(s)
    ensures Inv(s)
  {
    var behaviour :| Execute(START, behaviour) == Some(s);
    EveryBehaviour(START, behaviour);
  }

  /** When the loop is about to block, an inbox that holds something has its wake-up signalled. */
  lemma NoWakeupLost(s: State, k: Kind)
    requires Reachable(s) && s.phase == Polling
    ensures Box(s, k).queue != [] || (Box(s, k).lock.Held? && Box(s, k).lock.woken) ==> s.wake
  {
    ReachableInv(s);
    assert BoxInv(s, k);
  }

  /** Accepted items are finished in the order they were accepted, each at most once, and only events without work. */
  lemma FinishedInOrder(s: State, k: Kind)
    requires Reachable(s)
    ensures |Box(s, k).worked| == |Box(s, k).done| && (k != Events ==> false !in Box(s, k).worked)
    ensures Box(s, k).done <= Box(s, k).posted
    ensures Box(s, k).posted[|Box(s, k).done|..] == Box(s, k).local + Box(s, k).queue
  {
    ReachableInv(s);
    assert BoxInv(s, k);
    Regroup(Box(s, k));
    var behaviour :| Execute(START, behaviour) == Some(s);
    EveryFate(START, behaviour, k);
  }

  lemma Regroup(b: Inbox)
    requires Conserved(b)
    ensures b.done <= b.posted && b.posted[|b.done|..] == b.local + b.queue
  {
    assert b.posted == b.done + (b.local + b.queue);
  }

  // ---------- What is thrown away ----------

  /** Every finished item has its fate recorded, and only events are ever thrown away. */
  predicate Fated(b: Inbox, k: Kind) {
    |b.worked| == |b.done| && (k != Events ==> false !in b.worked)
  }

  /** What one step may do to an inbox: nothing is thrown away unless run() is ending. */
  predicate FateStep(before: Inbox, after: Inbox, k: Kind, ending: bool) {
    && Fated(after, k) && before.worked <= after.worked
    && (false in after.worked[|before.worked|..] ==> k == Events && ending)
  }

  lemma FateKept(before: Inbox, after: Inbox, k: Kind, ending: bool)
    requires Fated(before, k) && after.worked == before.worked && after.done == before.done
    ensures FateStep(before, after, k, ending)
  {
  }

  lemma FateWorked(b: Inbox, k: Kind, ending: bool)
    requires Fated(b, k) && b.local != []
    ensures FateStep(b, WorkedOff(b), k, ending)
  {
  }

  lemma FateEmptied(b: Inbox)
    requires Fated(b, Events)
    ensures FateStep(b, Emptied(b), Events, true)
  {
  }

  /** run() is ending: its last step is about to be taken, or was. */
  predicate Ending(s: State, t: State) {
    s.phase == Discarding && t.phase == Idle
  }

  /** Tasks and deletions are never thrown away, and events only at the very end of run(). */
  lemma StepFates(s: State, a: Action, k: Kind)
    requires Step(s, a).Some? && Fated(Box(s, k), k)
    ensures FateStep(Box(s, k), Box(Step(s, a).value, k), k, Ending(s, Step(s, a).value))
  {
    var t := Step(s, a).value;
    if ProducerStep(s, a).Some? {
      ProducersOnlyAdd(s, a, k);
      FateKept(Box(s, k), Box(t, k), k, Ending(s, t));
    } else {
      LoopFates(s, a, k);
    }
  }

  lemma SwapFates(s: State, j: Kind, next: Phase, k: Kind)
    requires SwapOut(s, j, next).Some? && Fated(Box(s, k), k)
    ensures FateStep(Box(s, k), Box(SwapOut(s, j, next).value, k), k, false)
  {
    Elsewhere(s, j, Box(s, j).(local := Box(s, j).queue, queue := []), k);
    FateKept(Box(s, k), Box(SwapOut(s, j, next).value, k), k, false);
  }

  lemma WorkFates(s: State, j: Kind, quits: bool, k: Kind)
    requires Work(s, j, quits).Some? && Fated(Box(s, k), k)
    ensures FateStep(Box(s, k), Box(Work(s, j, quits).value, k), k, false)
  {
    Elsewhere(s, j, WorkedOff(Box(s, j)), k);
    if k == j {
      FateWorked(Box(s, k), k, false);
    } else {
      FateKept(Box(s, k), Box(Work(s, j, quits).value, k), k, false);
    }
  }

  lemma MoveFates(s: State, a: Action, k: Kind)
    requires Move(s, a).Some? && Fated(Box(s, k), k)
    ensures FateStep(Box(s, k), Box(Move(s, a).value, k), k, false)
  {
    assert Box(Move(s, a).value, k) == Box(s, k);
    FateKept(Box(s, k), Box(s, k), k, false);
  }

  lemma DiscardFates(s: State, k: Kind)
    requires Discard(s).Some? && Fated(Box(s, k), k)
    ensures FateStep(Box(s, k), Box(Discard(s).value, k), k, true)
  {
    if k == Events {
      FateEmptied(s.events);
    } else {
      FateKept(Box(s, k), Box(s, k), k, true);
    }
  }

  lemma LoopFates(s: State, a: Action, k: Kind)
    requires LoopStep(s, a).Some? && Fated(Box(s, k), k)
    ensures FateStep(Box(s, k), Box(LoopStep(s, a).value, k), k, Ending(s, LoopStep(s, a).value))
  {
    match (s.phase, a) {
      case (Draining(j), Swap) => SwapFates(s, j, Working(j), k);
      case (FinalDraining(j), Swap) => SwapFates(s, j, FinalWorking(j), k);
      case (Discarding, Swap) => DiscardFates(s, k);
      case (Working(j), WorkOne(quits)) => WorkFates(s, j, quits, k);
      case (FinalWorking(j), WorkOne(quits)) => WorkFates(s, j, quits, k);
      case _ => MoveFates(s, a, k);
    }
  }

  lemma {:induction false} EveryFate(s: State, behaviour: seq<Action>, k: Kind)
    requires Fated(Box(s, k), k) && Execute(s, behaviour).Some?
    ensures Fated(Box(Execute(s, behaviour).value, k), k)
  {
    if behaviour != [] {
      var earlier := behaviour[..|behaviour| - 1];
      EveryFate(s, earlier, k);
      StepFates(Execute(s, earlier).value, behaviour[|behaviour| - 1], k);
    }
  }

  /** What is thrown away is what was still queued, and all of it is recorded as such. */
  lemma DiscardedAll(s: State)
    requires s.phase == Discarding && s.events.lock.Free? && |s.events.worked| == |s.events.done|
    ensures var t := Step(s, Swap).value;
            && t.phase == Idle && t.events.queue == [] && t.events.done == s.events.done + s.events.queue
            && |t.events.worked| == |t.events.done|
            && forall i :: |s.events.worked| <= i < |t.events.worked| ==> !t.events.worked[i]
  {
  }

  // ---------- What can always happen ----------

  /** A producer that finds the lock free can post: its item is queued last, and the wake-up is signalled. */
  lemma PostWorks(s: State, k: Kind, item: int)
    requires Box(s, k).lock.Free?
    ensures var t := Execute(s, [Acquire(k, item), Wake(k, true), Insert(k)]);
            && t.Some? && t.value.wake && t.value.phase == s.phase && t.value.running == s.running
            && Box(t.value, k) == Box(s, k).(queue := Box(s, k).queue + [item], posted := Box(s, k).posted + [item])
  {
    var b := Box(s, k);
    var one := With(s, k, b.(lock := Held(item, false)));
    var two := With(one, k, b.(lock := Held(item, true))).(wake := true);
    Elsewhere(s, k, b.(lock := Held(item, false)), k);
    Elsewhere(one, k, b.(lock := Held(item, true)), k);
    assert Step(s, Acquire(k, item)) == Some(one);
    assert Box(two, k) == b.(lock := Held(item, true));
    assert Step(one, Wake(k, true)) == Some(two);
    var after := b.(lock := Free, queue := b.queue + [item], posted := b.posted + [item]);
    Elsewhere(two, k, after, k);
    assert Step(two, Insert(k)) == Some(With(two, k, after));
    ThreeSteps(s, Acquire(k, item), Wake(k, true), Insert(k));
  }

  lemma ThreeSteps(s: State, a: Action, b: Action, c: Action)
    requires Step(s, a).Some? && Step(Step(s, a).value, b).Some?
    ensures Execute(s, [a, b, c]) == Step(Step(Step(s, a).value, b).value, c)
  {
    assert [a, b, c][..2] == [a, b] && [a, b][..1] == [a] && [a][..0] == [];
    assert Execute(s, [a]) == Step(s, a);
    assert Execute(s, [a, b]) == Step(Step(s, a).value, b);
  }

  /** A wake-up that fails leaves nothing behind: the post was refused. */
  lemma PostRefused(s: State, k: Kind, item: int)
    requires Box(s, k).lock.Free?
    ensures Step(s, Acquire(k, item)).Some?
    ensures Step(Step(s, Acquire(k, item)).value, Wake(k, false)) == Some(s)
  {
    var b := Box(s, k);
    Elsewhere(s, k, b.(lock := Held(item, false)), k);
  }

  /** The next step of the loop, which no producer can take from it; a swap waits for its lock. */
  function Turn(s: State): Action {
    match s.phase
    case Idle => Run
    case Entering => Enter
    case Polling => Poll(s.wake, false)
    case Dispatching => Dispatched
    case Draining(_) => Swap
    case FinalDraining(_) => Swap
    case Discarding => Swap
    case Working(k) => if Box(s, k).local == [] then WorkDone else WorkOne(false)
    case FinalWorking(k) => if Box(s, k).local == [] then WorkDone else WorkOne(false)
  }

  /** The loop is never stuck, and its poll takes a wake-up it saw and no other. */
  lemma LoopTurns(s: State)
    requires s.tasks.lock.Free? && s.events.lock.Free? && s.deletes.lock.Free?
    ensures Step(s, Turn(s)).Some?
    ensures s.phase == Idle ==> Step(s, Run).value.running && Step(s, Run).value.phase == Entering
    ensures s.phase == Polling ==>
              forall saw :: Step(s, Poll(saw, false)) == Some(s.(wake := s.wake && !saw, phase := Dispatching))
    ensures s.phase == Polling ==> Step(s, Poll(false, true)) == Some(s.(running := false, phase := FinalDraining(Tasks)))
  {
  }

  // ---------- One round serves everything accepted before it ----------

  /** The first `n` accepted items are finished, being worked on, or in a queue that is about to be drained. */
  predicate Served(s: State, k: Kind, n: nat) {
    var b := Box(s, k);
    || n <= |b.done|
    || (InWork(s, k) && n <= |b.done| + |b.local|)
    || (DrainAhead(s, k) && n <= |b.posted|)
  }

  lemma ProducersOnlyAdd(s: State, a: Action, k: Kind)
    requires ProducerStep(s, a).Some?
    ensures var t := ProducerStep(s, a).value;
            && Box(t, k).done == Box(s, k).done && Box(t, k).local == Box(s, k).local && Box(t, k).worked == Box(s, k).worked
            && |Box(t, k).posted| >= |Box(s, k).posted| && t.phase == s.phase && (t.running ==> s.running)
  {
    match a {
      case Acquire(j, item) =>
        Elsewhere(s, j, Box(s, j).(lock := Held(item, false)), k);
      case Wake(j, true) =>
        Elsewhere(s, j, Box(s, j).(lock := Held(Box(s, j).lock.item, true)), k);
      case Wake(j, false) =>
        Elsewhere(s, j, Box(s, j).(lock := Free), k);
      case Insert(j) =>
        var b := Box(s, j);
        Elsewhere(s, j, b.(lock := Free, queue := b.queue + [b.lock.item], posted := b.posted + [b.lock.item]), k);
      case RequestQuit =>
    }
  }

  lemma SwapKeepsServed(s: State, j: Kind, next: Phase, k: Kind, n: nat)
    requires BoxInv(s, k) && Served(s, k, n) && SwapOut(s, j, next).Some?
    requires (s.phase == Draining(j) && next == Working(j))
          || (s.phase == FinalDraining(j) && next == FinalWorking(j) && j != Events)
    ensures Served(SwapOut(s, j, next).value, k, n)
  {
    Elsewhere(s, j, Box(s, j).(local := Box(s, j).queue, queue := []), k);
  }

  lemma WorkKeepsServed(s: State, j: Kind, quits: bool, k: Kind, n: nat)
    requires Served(s, k, n) && Work(s, j, quits).Some? && InWork(s, j)
    ensures Served(Work(s, j, quits).value, k, n)
  {
    var b := Box(s, j);
    Elsewhere(s, j, WorkedOff(b), k);
  }

  lemma MoveKeepsServed(s: State, a: Action, k: Kind, n: nat)
    requires Served(s, k, n) && Move(s, a).Some? && BoxInv(s, k) && PhaseInv(s)
    ensures Served(Move(s, a).value, k, n)
  {
    assert Box(Move(s, a).value, k) == Box(s, k);
  }

  lemma LoopKeepsServed(s: State, a: Action, k: Kind, n: nat)
    requires Inv(s) && Served(s, k, n) && LoopStep(s, a).Some?
    ensures Served(LoopStep(s, a).value, k, n)
  {
    assert BoxInv(s, k);
    match (s.phase, a) {
      case (Draining(j), Swap) => SwapKeepsServed(s, j, Working(j), k, n);
      case (FinalDraining(j), Swap) => SwapKeepsServed(s, j, FinalWorking(j), k, n);
      case (Discarding, Swap) =>
      case (Working(j), WorkOne(quits)) => WorkKeepsServed(s, j, quits, k, n);
      case (FinalWorking(j), WorkOne(quits)) => WorkKeepsServed(s, j, quits, k, n);
      case _ => MoveKeepsServed(s, a, k, n);
    }
  }

  lemma {:induction false} ServedForward(s: State, behaviour: seq<Action>, k: Kind, n: nat)
    requires Inv(s) && Served(s, k, n) && Execute(s, behaviour).Some?
    ensures Served(Execute(s, behaviour).value, k, n)
  {
    if behaviour != [] {
      var earlier, a := behaviour[..|behaviour| - 1], behaviour[|behaviour| - 1];
      ServedForward(s, earlier, k, n);
      EveryBehaviour(s, earlier);
      var t := Execute(s, earlier).value;
      if ProducerStep(t, a).Some? {
        ProducersOnlyAdd(t, a, k);
      } else {
        LoopKeepsServed(t, a, k, n);
      }
    }
  }

  /** Whatever was accepted when poll returned is finished by the time the loop is about to block again. */
  lemma EveryRoundServes(s: State, round: seq<Action>, k: Kind)
    requires Reachable(s) && s.phase == Dispatching
    requires Execute(s, round).Some? && Execute(s, round).value.phase == Polling
    ensures |Box(s, k).posted| <= |Box(Execute(s, round).value, k).done|
  {
    ReachableInv(s);
    ServedForward(s, round, k, |Box(s, k).posted|);
  }
}
