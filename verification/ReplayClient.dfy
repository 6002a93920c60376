/**
 The request-scoped client's call loop: deadlines, reconnection, replay policy
 and what it reports about mutations whose outcome it could not observe.
 */
module ReplayClient {
  import opened Wrappers

  // ---------- Operations ----------

  datatype Method =
    | SystemInfo | SystemStats
    | QueueCreate | QueueGet | QueueList | QueueUpdate | QueueSuspend | QueueResume | QueueDelete | QueueStats
    | JobCreate | JobGet | JobList | JobUpdate | JobSuspend | JobResume | JobMove | JobDelete | JobRunNow
    | RunGet | RunList | RunCancel | AttemptGet | AttemptList | AttemptOutput
    | SecretSet | SecretList | SecretDelete | ScheduleValidate | ScheduleNext

  datatype Policy = Read | DesiredState | Keyed | Unsafe

  function ReplayPolicy(m: Method): Policy {
    match m
    case SystemInfo | SystemStats | QueueGet | QueueList | QueueStats | JobGet | JobList | RunGet | RunList => Read
    case AttemptGet | AttemptList | AttemptOutput | SecretList | ScheduleValidate | ScheduleNext => Read
    case QueueSuspend | QueueResume | JobSuspend | JobResume => DesiredState
    case QueueCreate | JobCreate | JobRunNow => Keyed
    case _ => Unsafe
  }

  /** What the typed client below takes for a mutation. */
  predicate IsMutation(m: Method) {
    match m
    case QueueCreate | QueueUpdate | QueueSuspend | QueueResume | QueueDelete => true
    case JobCreate | JobUpdate | JobSuspend | JobResume | JobMove | JobDelete | JobRunNow => true
    case RunCancel | SecretSet | SecretDelete => true
    case _ => false
  }

  datatype Operation = Operation(name: Method, key: Option<string>) {
    /** A create without a key is never replayed. */
    function Policy(): Policy {
      var policy := ReplayPolicy(name);
      if policy == Keyed && (key.None? || key.value == "") then Unsafe else policy
    }
  }

  /** What may be executed again: reads, the four state requests, and the three creations that carry a key. */
  predicate Repeatable(op: Operation) {
    || !IsMutation(op.name)
    || op.name in {QueueSuspend, QueueResume, JobSuspend, JobResume}
    || (op.name in {QueueCreate, JobCreate, JobRunNow} && op.key.Some? && op.key.value != "")
  }

  /** The methods that only report. */
  predicate Reports(m: Method) {
    m in {SystemInfo, SystemStats, QueueGet, QueueList, QueueStats, JobGet, JobList, RunGet, RunList,
          AttemptGet, AttemptList, AttemptOutput, SecretList, ScheduleValidate, ScheduleNext}
  }

  lemma RepeatableExactly(op: Operation)
    ensures op.Policy() != Unsafe <==> Repeatable(op)
    ensures !IsMutation(op.name) <==> Reports(op.name)
  {
  }

  /** The two classifications agree: an operation is a read exactly when the typed client sees no mutation. */
  lemma ReadsAreNotMutations(op: Operation)
    ensures op.Policy() == Read <==> !IsMutation(op.name)
  {
  }

  // ---------- Errors and outcomes ----------

  datatype Code =
    | ConnectionFailed | ConnectionClosed | ShortWrite | NotReady  // the transport failures
    | ClientTimeout | ClientClosed | ClientUnusable | InvalidResponse | Foreign

  datatype Category = Timeout | AnyOther

  datatype Error = Error(category: Category, code: Code)

  /** What a synchronous wait can fail with. */
  datatype WaitError = DeadlinePassed | Stopped | ProcessingFailed | BadContext

  function Waited(e: WaitError): Error {
    Error(if e.DeadlinePassed? then Timeout else AnyOther, Foreign)
  }

  predicate TransportFailure(e: Error) {
    e.code.ConnectionFailed? || e.code.ConnectionClosed? || e.code.ShortWrite? || e.code.NotReady?
  }

  datatype Failure =
    | Local(error: Error, unknown: bool)
    | Remote(oversized: bool, unknown: bool)

  type Reply = Result<(), Failure>

  /** Whether the request may have left the process, and then whether the daemon executed it. */
  datatype Escape = Kept | Escaped(executed: bool)

  /** A response that came back: an error response other than the oversized one means nothing was changed. */
  datatype Answer = Success(decodes: bool) | Rejection | Oversized(executed: bool)

  datatype Pending = Waiting(escape: Escape) | Queued(answer: Answer)

  /** One accepted or refused submission, as the daemon and the network decide it. */
  datatype Attempt =
    | Refused(error: Error)
    | Answered(answer: Answer)
    | Lost(error: Error, escape: Escape)
    | Expired(escape: Escape)
    | Abandoned(wait: WaitError, pending: Pending, retired: bool)

  predicate AnswerExecuted(a: Answer) {
    a.Success? || (a.Oversized? && a.executed)
  }

  predicate EscapeExecuted(e: Escape) {
    e.Escaped? && e.executed
  }

  /** Did the daemon execute the request of this attempt? */
  predicate Executed(a: Attempt) {
    match a
    case Refused(_) => false
    case Answered(answer) => AnswerExecuted(answer)
    case Lost(_, escape) => EscapeExecuted(escape)
    case Expired(escape) => EscapeExecuted(escape)
    case Abandoned(_, Waiting(escape), _) => EscapeExecuted(escape)
    case Abandoned(_, Queued(answer), _) => AnswerExecuted(answer)
  }

  function Deliver(mutation: bool, answer: Answer): Reply {
    match answer
    case Success(true) => Ok(())
    case Success(false) => Err(Local(Error(AnyOther, InvalidResponse), mutation))
    case Rejection => Err(Remote(false, false))
    case Oversized(_) => Err(Remote(true, false))
  }

  /** The uncertainty bit that cancelling the call reports; a retired call reports nothing and counts as uncertain. */
  predicate CancelledUnknown(mutation: bool, pending: Pending, retired: bool) {
    retired || (mutation && match pending
                case Waiting(escape) => escape.Escaped?
                case Queued(answer) => answer.Success?)
  }

  /** What call_synchronously() returns for an attempt. */
  function Outcome(mutation: bool, a: Attempt): Reply {
    match a
    case Refused(error) => Err(Local(error, false))
    case Answered(answer) => Deliver(mutation, answer)
    case Lost(error, escape) =>
      Err(Local(error, mutation && (escape.Escaped? || error.code.ShortWrite? || error.code.ConnectionClosed?)))
    case Expired(escape) => Err(Local(Error(Timeout, Foreign), mutation && escape.Escaped?))
    case Abandoned(wait, pending, retired) => Err(Local(Waited(wait), CancelledUnknown(mutation, pending, retired)))
  }

  predicate MutationOutcomeUnknown(op: Operation, f: Failure) {
    op.Policy() != Read && (f.unknown || (f.Remote? && f.oversized))
  }

  /** The wait was given up while an oversized-response error sat undelivered, and the daemon had executed the call. */
  predicate Forgets(a: Attempt) {
    a.Abandoned? && !a.retired && a.pending.Queued? && a.pending.answer == Oversized(true)
  }

  /** The request may have reached the daemon, as far as the client can tell, and no refusal came back. */
  predicate MayHaveRun(a: Attempt) {
    match a
    case Refused(_) => false
    case Answered(answer) => !answer.Rejection?
    case Lost(error, escape) => escape.Escaped? || error.code.ShortWrite? || error.code.ConnectionClosed?
    case Expired(escape) => escape.Escaped?
    case Abandoned(_, Waiting(escape), retired) => retired || escape.Escaped?
    case Abandoned(_, Queued(answer), retired) => retired || answer.Success?
  }

  /** A failed attempt is uncertain exactly when it was a mutation that may have run; a success is one that decodes. */
  lemma UncertainExactly(op: Operation, a: Attempt)
    ensures Outcome(IsMutation(op.name), a).Ok? <==> a == Answered(Success(true))
    ensures Outcome(IsMutation(op.name), a).Err? ==>
              var f := Outcome(IsMutation(op.name), a).error;
              && (MutationOutcomeUnknown(op, f) <==> IsMutation(op.name) && MayHaveRun(a))
              && (f.Remote? <==> a == Answered(Rejection) || (a.Answered? && a.answer.Oversized?))
              && (f.Remote? ==> (f.oversized <==> a.answer.Oversized?))
              && (f.Local? && a.Lost? ==> f.error == a.error) && (f.Local? && a.Refused? ==> f.error == a.error)
  {
    ReadsAreNotMutations(op);
  }

  /** A failed mutation that was executed is reported as uncertain, except exactly when the attempt forgets. */
  lemma UncertaintyIsExact(op: Operation, a: Attempt)
    requires op.Policy() != Read && Outcome(IsMutation(op.name), a).Err? && Executed(a)
    ensures MutationOutcomeUnknown(op, Outcome(IsMutation(op.name), a).error) <==> !Forgets(a)
  {
    ReadsAreNotMutations(op);
  }

  /** The failing case: every mutation has an attempt that was executed and is reported as certain to have failed. */
  lemma SomeAttemptForgets(op: Operation)
    requires op.Policy() != Read
    ensures exists a :: Executed(a) && Outcome(IsMutation(op.name), a).Err?
              && !MutationOutcomeUnknown(op, Outcome(IsMutation(op.name), a).error)
  {
    var a := Abandoned(DeadlinePassed, Queued(Oversized(true)), false);
    assert Executed(a) && Outcome(IsMutation(op.name), a).Err?;
  }

  // ---------- The world the client runs in ----------

  /** A pause that either runs its course, some time late, or is interrupted. */
  datatype Pause = Elapsed(late: nat) | Interrupted(error: WaitError)

  /** Everything the client does not decide, as functions of how many steps have been taken; and the clock. */
  class World {
    const contexts: nat -> bool
    const sessions: nat -> Option<Error>
    const connections: nat -> Option<Error>
    const attempts: nat -> Attempt
    const drops: nat -> bool
    const pauses: nat -> Pause
    const durations: nat -> nat

    var turn: nat
    var now: int

    ghost var commits: nat
    ghost var submissions: nat
    ghost var last: Option<Attempt>
    ghost var connects: nat
    ghost var trouble: Option<Error>  // how the last step that is no attempt failed, if it did
    ghost var doubts: nat             // attempts that left it open whether they were executed
    ghost var made: nat               // sessions that were made anew

    constructor (contexts: nat -> bool, sessions: nat -> Option<Error>, connections: nat -> Option<Error>,
                 attempts: nat -> Attempt, drops: nat -> bool, pauses: nat -> Pause, durations: nat -> nat, now: int)
      ensures this.attempts == attempts && this.now == now && commits == 0
    {
      this.contexts, this.sessions, this.connections := contexts, sessions, connections;
      this.attempts, this.drops, this.pauses, this.durations := attempts, drops, pauses, durations;
      this.now, turn := now, 0;
      commits, submissions, last, connects, trouble, doubts, made := 0, 0, None, 0, None, 0, 0;
    }

    method Pass()
      modifies this`turn, this`now
      ensures now == old(now) + durations(old(turn)) && turn == old(turn) + 1
    {
      now := now + durations(turn);
      turn := turn + 1;
    }

    /** run_until() with a predicate that already holds: only the calling context can be wrong. */
    method Probe() returns (error: Option<Error>)
      modifies this`turn, this`now, this`trouble
      ensures now >= old(now) && error == trouble
      ensures error == if contexts(old(turn)) then None else Some(Waited(BadContext))
    {
      error := if contexts(turn) then None else Some(Waited(BadContext));
      trouble := error;
      Pass();
    }

    method CreateSession() returns (error: Option<Error>)
      modifies this`turn, this`now, this`trouble, this`made
      ensures now >= old(now) && error == trouble == sessions(old(turn)) && made == old(made) + 1
    {
      error := sessions(turn);
      made := made + 1;
      trouble := error;
      Pass();
    }

    method ConnectSession(deadline: int) returns (error: Option<Error>)
      modifies this`turn, this`now, this`connects, this`trouble
      ensures now >= old(now) && connects == old(connects) + 1 && error == trouble
      ensures error == if old(now) >= deadline then Some(Error(Timeout, ClientTimeout)) else connections(old(turn))
    {
      error := if now >= deadline then Some(Error(Timeout, ClientTimeout)) else connections(turn);
      trouble := error;
      connects := connects + 1;
      Pass();
    }

    /** wait_to_reconnect(): succeeds only after the whole delay, and only if it began before the deadline. */
    method WaitToReconnect(deadline: int, delay: nat) returns (error: Option<Error>)
      modifies this`turn, this`now, this`trouble
      ensures now >= old(now) && (error.None? ==> old(now) < deadline && now >= old(now) + delay)
      ensures error == trouble
      ensures error == if old(now) >= deadline then Some(Waited(DeadlinePassed))
                       else match pauses(old(turn)) case Elapsed(_) => None case Interrupted(e) => Some(Waited(e))
    {
      if now >= deadline {
        trouble := Some(Waited(DeadlinePassed));
        return Some(Waited(DeadlinePassed));
      }
      var pause := pauses(turn);
      Pass();
      match pause {
        case Elapsed(late) =>
          now := now + delay + late;
          trouble := None;
          return None;
        case Interrupted(e) =>
          trouble := Some(Waited(e));
          return Some(Waited(e));
      }
    }

    /** call_synchronously(): one submission, waited for until the deadline. */
    method CallSynchronously(deadline: int, op: Operation) returns (reply: Reply, dropped: bool)
      modifies this`turn, this`now, this`last, this`commits, this`submissions
      ensures now >= old(now)
      ensures last == Some(if old(now) < deadline then attempts(old(turn)) else Refused(Error(Timeout, ClientTimeout)))
      ensures dropped == drops(old(turn))
      ensures last.Some? && reply == Outcome(IsMutation(op.name), last.value)
      ensures commits == old(commits) + (if Executed(last.value) then 1 else 0)
      ensures submissions == old(submissions) + (if old(now) < deadline then 1 else 0)
      ensures old(now) >= deadline ==> last.value == Refused(Error(Timeout, ClientTimeout))
    {
      var attempt := attempts(turn);
      dropped := drops(turn);
      if now >= deadline {
        attempt := Refused(Error(Timeout, ClientTimeout));
      } else {
        submissions := submissions + 1;
      }
      Pass();
      last := Some(attempt);
      if Executed(attempt) {
        commits := commits + 1;
      }
      reply := Outcome(IsMutation(op.name), attempt);
    }
  }

  // ---------- The client ----------

  datatype ConnectionState = Connecting | Ready | Disconnected | Unusable | Closed

  function Doubled(delay: nat): nat {
    if delay * 2 < 250 then delay * 2 else 250
  }

  /** The delay after the k-th failure. */
  function DelayAt(k: nat): nat {
    if k == 0 then 10 else Doubled(DelayAt(k - 1))
  }

  /** All delays before the n-th retry together. */
  function Waits(n: nat): nat {
    if n == 0 then 0 else Waits(n - 1) + DelayAt(n - 1)
  }

  /** Delays double from ten milliseconds up to a quarter of a second. */
  lemma {:induction false} DelaysDouble(k: nat)
    ensures DelayAt(k) == if k < 5 then [10, 20, 40, 80, 160][k] else 250
  {
    if k > 0 {
      DelaysDouble(k - 1);
    }
  }

  lemma {:induction false} WaitsAdd(n: nat)
    ensures Waits(n) >= 10 * n && DelayAt(n) >= 10
  {
    DelaysDouble(n);
    if n > 0 {
      WaitsAdd(n - 1);
    }
  }

  class Client {
    var state: ConnectionState
    const world: World

    constructor (world: World)
      ensures this.world == world && state == Ready
    {
      this.world := world;
      state := Ready;
    }

    /** One try to connect and, when recovering, the wait after a transport failure. */
    method ConnectOnce(deadline: int, recovering: bool, delay: nat) returns (again: bool, error: Option<Error>)
      modifies this, world`turn, world`now, world`connects, world`trouble, world`made
      ensures world.now >= old(world.now) && old(world.connects) <= world.connects <= old(world.connects) + 1
      ensures again ==> recovering && world.connects == old(world.connects) + 1 && state == Connecting
      ensures again ==> old(world.now) < deadline && world.now >= old(world.now) + delay
      ensures !again ==> error == world.trouble
      ensures !again && error.None? ==> state == Ready && world.connects > old(world.connects)
      ensures !again && error.Some? ==> state == old(state) || state == Connecting
      ensures !again && error.Some? && recovering && TransportFailure(error.value) ==>
                exists n :: world.sessions(n) == error
      ensures !again && error.Some? && !recovering ==> world.connects > old(world.connects)
      ensures world.made == old(world.made) + if recovering then 1 else 0
      ensures recovering && world.sessions(old(world.turn)).Some? ==>
                !again && error == world.sessions(old(world.turn)) && world.connects == old(world.connects)
    {
      again := false;
      if recovering {
        error := world.CreateSession();
        if error.Some? {
          return;
        }
      }
      state := Connecting;
      error := world.ConnectSession(deadline);
      if error.None? {
        state := Ready;
        return;
      }
      if !recovering || !TransportFailure(error.value) {
        return;
      }
      error := world.WaitToReconnect(deadline, delay);
      again := error.None?;
    }

    /**
     connect(): when recovering, transport failures are retried with growing
     delays until the deadline: a retry comes when all delays before it have
     passed, and the last of them began in time.
     */
    method Connect(deadline: int, recovering: bool) returns (error: Option<Error>)
      modifies this, world`turn, world`now, world`connects, world`trouble, world`made
      ensures world.now >= old(world.now)
      ensures var tries := world.connects - old(world.connects);
              && tries >= 0 && (!recovering ==> tries <= 1)
              && (tries > 1 ==> Waits(tries - 2) < deadline - old(world.now) && Waits(tries - 1) <= world.now - old(world.now))
      ensures error == world.trouble
      ensures error.None? ==> state == Ready && world.connects > old(world.connects)
      ensures error.Some? ==> state == old(state) || state == Connecting
      ensures error.Some? && recovering && TransportFailure(error.value) ==> exists n :: world.sessions(n) == error
      ensures !world.contexts(old(world.turn)) ==>
                error == Some(Waited(BadContext)) && world.connects == old(world.connects)
      ensures world.contexts(old(world.turn)) && recovering ==> world.made > old(world.made)
      ensures !recovering ==> world.made == old(world.made)
    {
      error := world.Probe();
      if error.Some? {
        return;
      }
      var delay := 10;
      ghost var tries := 0;
      while true
        invariant world.now >= old(world.now) && (state == old(state) || state == Connecting)
        invariant world.connects == old(world.connects) + tries && (!recovering ==> tries == 0)
        invariant world.made == old(world.made) + (if recovering then tries else 0) && world.contexts(old(world.turn))
        invariant delay == DelayAt(tries) && Waits(tries) <= world.now - old(world.now)
        invariant tries > 0 ==> Waits(tries - 1) < deadline - old(world.now)
        decreases deadline - world.now
      {
        WaitsAdd(tries);
        var again;
        again, error := ConnectOnce(deadline, recovering, delay);
        if !again {
          return;
        }
        delay, tries := Doubled(delay), tries + 1;
      }
    }

    /** One attempt; the failure it returns carries the uncertainty of this attempt and of the earlier ones. */
    method Submit(deadline: int, op: Operation, uncertain: bool) returns (reply: Reply)
      requires op.Policy() == Read ==> !uncertain
      requires state == Ready || state == Connecting
      modifies this, world`turn, world`now, world`last, world`commits, world`submissions, world`doubts
      ensures reply.Ok? <==> world.last.Some? && Outcome(IsMutation(op.name), world.last.value).Ok?
      ensures reply.Err? ==> world.last.Some? && Outcome(IsMutation(op.name), world.last.value).Err?
      ensures reply.Err? ==> reply.error == Outcome(IsMutation(op.name), world.last.value).error.(unknown := reply.error.unknown)
      ensures reply.Err? ==> reply.error.unknown == (uncertain || world.doubts > old(world.doubts))
      ensures reply.Ok? ==> world.doubts == old(world.doubts)
      ensures world.doubts >= old(world.doubts)
      ensures world.now >= old(world.now)
      ensures world.submissions == old(world.submissions) + (if old(world.now) < deadline then 1 else 0)
      ensures state == if world.drops(old(world.turn)) && old(state) == Ready then Disconnected else old(state)
      ensures world.last.Some? && world.commits == old(world.commits) + (if Executed(world.last.value) then 1 else 0)
      ensures old(world.now) >= deadline ==> world.last == Some(Refused(Error(Timeout, ClientTimeout)))
      ensures reply.Ok? ==> Executed(world.last.value)
      ensures reply.Err? && uncertain ==> reply.error.unknown
      ensures reply.Err? && op.Policy() == Read ==> !reply.error.unknown
      ensures reply.Err? && op.Policy() != Read && !reply.error.unknown ==>
                Executed(world.last.value) == Forgets(world.last.value)
      ensures Forgets(world.last.value) ==> Executed(world.last.value) && reply.Err? && reply.error.unknown == uncertain
      ensures Forgets(world.last.value) ==> reply.error.Local? && !TransportFailure(reply.error.error)
    {
      var result, dropped := world.CallSynchronously(deadline, op);
      if dropped && state == Ready {
        state := Disconnected;
      }
      if result.Ok? {
        return result;
      }
      ReadsAreNotMutations(op);
      if op.Policy() != Read && Executed(world.last.value) {
        UncertaintyIsExact(op, world.last.value);
      }
      if MutationOutcomeUnknown(op, result.error) {
        world.doubts := world.doubts + 1;
      }
      return Err(result.error.(unknown := uncertain || MutationOutcomeUnknown(op, result.error)));
    }

    /**
     Why a call may fail: the client was closed or unusable, a step between the
     attempts failed, or the last attempt did.
     */
    ghost predicate GaveUp(before: ConnectionState, op: Operation, f: Failure)
      reads this, world
    {
      if before == Closed then f == Local(Error(AnyOther, ClientClosed), false)
      else if before == Unusable then f == Local(Error(AnyOther, ClientUnusable), false)
      else if world.trouble.Some? then
        && f.Local? && f.error == world.trouble.value
        && (state == Unusable || (world.submissions == 0 && f.error == Waited(BadContext) && state == before))
      else
        && world.last.Some? && Outcome(IsMutation(op.name), world.last.value).Err?
        && f == Outcome(IsMutation(op.name), world.last.value).error.(unknown := f.unknown)
    }

    /** Between two attempts: nothing failed that ends the call, and what is uncertain is known to be. */
    ghost predicate Going(op: Operation, uncertain: bool, start: int, deadline: int)
      reads this, world
    {
      && world.now >= start && state != Closed && state != Unusable && world.trouble.None?
      && (uncertain <==> world.doubts > 0)
      && (world.last.Some? ==> Outcome(IsMutation(op.name), world.last.value).Err? && !Forgets(world.last.value))
      && (Reports(op.name) || !Repeatable(op) || world.submissions == 0 ==> !uncertain)
      && (!Reports(op.name) && !uncertain ==> world.commits == 0)
      && (world.submissions == 0 ==> world.commits == 0)
      && Waits(world.submissions) <= world.now - start
      && (world.submissions > 0 ==> Waits(world.submissions - 1) < deadline - start)
    }

    /** What a call may claim of the attempts it made. */
    ghost predicate Ended(before: ConnectionState, op: Operation, start: int, deadline: int, reply: Reply)
      reads this, world
    {
      && world.now >= start
      && (reply.Ok? <==> world.last.Some? && Outcome(IsMutation(op.name), world.last.value).Ok?)
      && (reply.Ok? ==> world.commits >= 1)
      && (reply.Err? ==> GaveUp(before, op, reply.error) && (reply.error.unknown <==> world.doubts > 0))
      && (!Repeatable(op) ==> world.commits <= 1)
      && (reply.Err? && Reports(op.name) ==> !reply.error.unknown)
      && (reply.Err? && !Reports(op.name) && !reply.error.unknown ==>
            world.commits == if world.last.Some? && Forgets(world.last.value) then 1 else 0)
      && (reply.Err? && reply.error.Local? && TransportFailure(reply.error.error) ==>
            state == Unusable || (!Repeatable(op) && reply.error.unknown && state == Disconnected))
      && (reply.Err? && reply.error.Local? && reply.error.error.category == Timeout ==>
            state == Unusable || (!Repeatable(op) && reply.error.unknown))
      && (world.submissions > 0 ==> Waits(world.submissions - 1) < deadline - start)
      && (world.submissions == 1 && world.last.Some? && Forgets(world.last.value) ==>
            reply.Err? && !reply.error.unknown && world.commits == 1)
    }

    /** Connects a client that lost its connection; the call ends when that fails. */
    method Recover(deadline: int, op: Operation, uncertain: bool, ghost start: int, ghost before: ConnectionState)
      returns (reply: Option<Reply>)
      requires Going(op, uncertain, start, deadline) && before != Closed && before != Unusable
      modifies this, world`turn, world`now, world`connects, world`trouble, world`made
      ensures world.now >= old(world.now)
      ensures reply.Some? ==> Ended(before, op, start, deadline, reply.value)
      ensures reply.None? ==> Going(op, uncertain, start, deadline) && (state == Ready || state == Connecting)
      ensures if old(state) == Disconnected then reply.None? ==> state == Ready && world.made > old(world.made)
              else reply.None? && unchanged(world) && state == old(state)
    {
      if state == Disconnected {
        var connected := Connect(deadline, true);
        if connected.Some? {
          state := Unusable;
          return Some(Err(Local(connected.value, uncertain)));
        }
      }
      return None;
    }

    /** The last attempt failed: what is known of it and of those before. */
    ghost predicate Failed(op: Operation, start: int, deadline: int, f: Failure)
      reads this, world
    {
      && world.now >= start && (state == Ready || state == Connecting || state == Disconnected) && world.trouble.None?
      && world.last.Some? && Outcome(IsMutation(op.name), world.last.value).Err?
      && f == Outcome(IsMutation(op.name), world.last.value).error.(unknown := f.unknown)
      && (f.unknown <==> world.doubts > 0)
      && (Reports(op.name) ==> !f.unknown)
      && (!Reports(op.name) && !f.unknown ==> world.commits == if Forgets(world.last.value) then 1 else 0)
      && (!Repeatable(op) ==> world.commits <= 1)
      && (world.submissions > 0 ==> Waits(world.submissions - 1) < deadline - start)
      && (world.submissions == 1 && Forgets(world.last.value) ==> !f.unknown && world.commits == 1)
      && (Forgets(world.last.value) ==> f.Local? && !TransportFailure(f.error))
    }

    /** What follows a failed attempt: the reply that ends the call, or the wait before the next attempt. */
    method React(deadline: int, op: Operation, failure: Failure, delay: nat, ghost start: int, ghost before: ConnectionState)
      returns (reply: Option<Reply>)
      requires Failed(op, start, deadline, failure) && before != Closed && before != Unusable
      modifies this`state, world`turn, world`now, world`trouble
      ensures reply.Some? ==> Ended(before, op, start, deadline, reply.value)
      ensures reply.None? ==>
                && Failed(op, start, deadline, failure) && state == Disconnected
                && failure.Local? && TransportFailure(failure.error) && (failure.unknown ==> Repeatable(op))
                && world.now >= old(world.now) + delay
      ensures reply.Some? && (failure.Remote? || (!TransportFailure(failure.error)
                              && failure.error.category != Timeout && !(failure.unknown && !Repeatable(op)))) ==>
                state == old(state)
    {
      RepeatableExactly(op);
      if failure.Remote? {
        return Some(Err(failure));
      }
      if failure.unknown && op.Policy() == Unsafe {
        state := Disconnected;
        return Some(Err(failure));
      }
      if !TransportFailure(failure.error) {
        if failure.error.category == Timeout {
          state := Unusable;
        }
        return Some(Err(failure));
      }
      state := Disconnected;
      var waited := world.WaitToReconnect(deadline, delay);
      if waited.Some? {
        state := Unusable;
        return Some(Err(Local(waited.value, failure.unknown)));
      }
      return None;
    }

    /** One attempt on a connected client: the reply that ends the call, or nothing when it is to be made again. */
    method TryOnce(deadline: int, op: Operation, uncertain: bool, delay: nat, ghost start: int, ghost before: ConnectionState)
      returns (reply: Option<Reply>, next: bool)
      requires delay == DelayAt(world.submissions) && Going(op, uncertain, start, deadline)
      requires (state == Ready || state == Connecting) && before != Closed && before != Unusable
      modifies this, world
      ensures reply.Some? ==> Ended(before, op, start, deadline, reply.value)
      ensures reply.None? ==> Going(op, next, start, deadline) && old(world.now) < deadline && world.now > old(world.now)
      ensures reply.None? ==> world.submissions == old(world.submissions) + 1
    {
      RepeatableExactly(op);
      ReadsAreNotMutations(op);
      WaitsAdd(world.submissions);
      var result := Submit(deadline, op, uncertain);
      if result.Ok? {
        return Some(result), uncertain;
      }
      next := result.error.unknown;
      reply := React(deadline, op, result.error, delay, start, before);
    }

    /**
     call(): replays after transport failures. What may not be executed again is
     executed at most once; a failed mutation that is not reported as uncertain
     was not executed, except in the one case `Forgets` names, and then exactly
     once. Every other transport failure is retried until the deadline. The ghost
     counters of the world are those of this call.
     */
    method Call(deadline: int, op: Operation) returns (reply: Reply)
      modifies this, world
      ensures Ended(old(state), op, old(world.now), deadline, reply)
      ensures old(state) == Closed || old(state) == Unusable ==>
                state == old(state) && reply.Err? && world.submissions == 0
    {
      world.commits, world.submissions, world.last, world.trouble, world.doubts := 0, 0, None, None, 0;
      if state == Closed {
        return Err(Local(Error(AnyOther, ClientClosed), false));
      }
      if state == Unusable {
        return Err(Local(Error(AnyOther, ClientUnusable), false));
      }
      var context := world.Probe();
      if context.Some? {
        return Err(Local(context.value, false));
      }
      var uncertain, delay := false, 10;
      while true
        invariant delay == DelayAt(world.submissions) && Going(op, uncertain, old(world.now), deadline)
        decreases deadline - world.now
      {
        var failed := Recover(deadline, op, uncertain, old(world.now), old(state));
        if failed.Some? {
          return failed.value;
        }
        var result, next := TryOnce(deadline, op, uncertain, delay, old(world.now), old(state));
        if result.Some? {
          return result.value;
        }
        uncertain, delay := next, Doubled(delay);
      }
    }
  }
}
