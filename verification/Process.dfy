/**
 The lifecycle of one process owner: launch behind a gate, the exec-status
 channel, two output channels, child exit, three timers, explicit stop,
 completion and destruction.

 Every native call is answered by an adversary: `Native.script` is a finite,
 otherwise arbitrary list of answers, consumed one per call. Signal slots are
 part of the same script, so a slot may call stop() (and start(), from
 finished) whenever the interface allows it.
 */
module ProcessLifecycle {
  import opened Wrappers
  import opened ProcessExits
  import opened ProcessHistory

  datatype ProcessState = NotRunning | Starting | Running | Stopping | Finishing

  datatype StopReason = CancelledReason | InterruptedReason

  datatype StopResult = StopOk | StopConflict | StopInvalidState | StopSignalFailed

  datatype Errno = EINTR | EAGAIN | ESRCH | EOTHER

  /** A native answer; `Waited` is a wait that returned the child, with its status word. */
  datatype Answer = Value(n: nat) | Waited(status: nat) | Fail(error: Errno)

  datatype Request = Request(deadline: Option<int>, grace: nat)

  /** One output pipe; `anchor` is the generation its live callbacks captured. */
  datatype Channel = Channel(anchor: Option<nat>, watched: bool, terminal: bool, continuationPending: bool)

  const CLOSED_CHANNEL := Channel(None, false, true, false)

  /** The owned child: identifiers, exit watch, and how far its termination has come. */
  datatype Leader = Leader(
    pid: int,
    group: int,
    watched: bool,
    anchor: Option<nat>,
    exitObserved: bool,
    killAttempted: bool,
    reaped: bool,
    notified: bool)  // the exit watch reported; it does so once for a child

  const NO_LEADER := Leader(-1, -1, false, None, false, false, false, false)

  /** The exec-status channel and the gate that holds the child back. */
  datatype Launch = Launch(anchor: Option<nat>, watched: bool, resolved: bool, gateReleased: bool, bytes: nat)

  const NO_LAUNCH := Launch(None, false, false, false, 0)

  /** The generation each armed timer captured. */
  datatype Timers = Timers(timeout: Option<nat>, termination: Option<nat>, postReap: Option<nat>)

  const NO_TIMERS := Timers(None, None, None)

  /** The history so far, its newest child, and what the history says of that child. */
  datatype Ledger = Ledger(history: History, child: nat, run: Run)

  /** Which guard left the run without a pending event: the last drain's, or the wait's. */
  datatype Late = Late(status: bool, wait: bool)

  const NEVER_LATE := Late(false, false)

  /** How a read of the launch channel came out. */
  datatype Pull = WouldBlock | Ended | Broken | Complete(stage: nat)

  const PIPE_READ_CHUNK_BYTES := 64 * 1024
  const PIPE_READ_BUDGET_BYTES := 256 * 1024
  const POST_REAP_DRAIN_TIMEOUT := 1_000_000_000
  const TIME_POINT_MAX := 0x7fff_ffff_ffff_ffff
  const CHILD_ERROR_BYTES := 8

  /** Saturating deadline: never past the end of the clock. */
  function Deadline(now: int, delay: int): int {
    if now > TIME_POINT_MAX - delay then TIME_POINT_MAX else now + delay
  }

  function RequestedKind(reason: StopReason): ExitKind {
    if reason.CancelledReason? then Cancelled else Interrupted
  }

  /** The error of a complete child record with the given stage byte. */
  function ChildError(stage: nat): StartError {
    if stage == 6 then ChdirFailed
    else if stage == 7 || stage == 8 then SecurityFailed
    else if stage == 9 then ExecFailed
    else ChildSetupFailed
  }

  /** The setup error a settled launch channel proves, if any. */
  function LaunchError(outcome: Pull, bytes: nat): Option<StartError> {
    match outcome
    case Complete(stage) => Some(ChildError(stage))
    case Ended => if bytes != 0 then Some(ChildSetupFailed) else None
    case _ => Some(ChildSetupFailed)
  }

  function Min(a: nat, b: nat): nat {
    if a < b then a else b
  }

  // ---------- What a list of answers says ----------

  /** The next answer; an exhausted list answers that the call would block. */
  function First(s: seq<Answer>): Answer {
    if s == [] then Fail(EAGAIN) else s[0]
  }

  function Rest(s: seq<Answer>): seq<Answer> {
    if s == [] then [] else s[1..]
  }

  /** A reading of the clock. */
  function Clock(s: seq<Answer>): nat {
    if First(s).Value? then First(s).n else 0
  }

  predicate Granted(s: seq<Answer>) {
    First(s) == Value(0)
  }

  /** What is left once the interrupted calls are past. */
  function Resumed(s: seq<Answer>): seq<Answer> {
    if s != [] && s[0] == Fail(EINTR) then Resumed(s[1..]) else s
  }

  /** The launch channel ends without a record, and no slot of started does anything. */
  predicate CleanLaunch(s: seq<Answer>) {
    First(s) == Value(0) && NoSlot(Rest(s))
  }

  /** Two reads that find the end of file. */
  predicate Closing(s: seq<Answer>) {
    First(s) == Value(0) && First(Rest(s)) == Value(0)
  }

  /** The child is reaped, and both its outputs have ended. */
  predicate Exits(s: seq<Answer>) {
    First(s).Waited? && Closing(Rest(s))
  }

  /** A signal that could not be sent to a group that is still there. */
  predicate Refused(a: Answer) {
    a.Fail? && a.error != ESRCH
  }

  /** No slot is left to run. */
  predicate NoSlot(s: seq<Answer>) {
    First(s) != Value(1) && First(s) != Value(2)
  }

  /** The slot that runs next stops the run. */
  predicate SlotStops(s: seq<Answer>) {
    (First(s) == Value(1) || First(s) == Value(2)) && !Refused(First(Rest(s)))
  }

  function SlotKind(s: seq<Answer>): ExitKind {
    if First(s) == Value(1) then Cancelled else Interrupted
  }

  /** Plan, pipes and signal mask succeed, and a child is created. */
  predicate Forks(s: seq<Answer>) {
    Granted(s) && Granted(Rest(s)) && Granted(Rest(Rest(s))) && ForkAnswer(s).Value? && ForkAnswer(s).n > 0
  }

  function ForkAnswer(s: seq<Answer>): Answer {
    First(Rest(Rest(Rest(s))))
  }

  function AfterFork(s: seq<Answer>): seq<Answer> {
    Rest(Rest(Rest(Rest(s))))
  }

  /** The process group and the four watches are granted. */
  predicate Watches(s: seq<Answer>) {
    Granted(s) && Granted(Rest(s)) && WatchesOutputs(Rest(Rest(s))) && Granted(Rest(Rest(Rest(Rest(s)))))
  }

  predicate WatchesOutputs(s: seq<Answer>) {
    Granted(s) && Granted(Rest(s))
  }

  function AfterWatches(s: seq<Answer>): seq<Answer> {
    Rest(Rest(Rest(Rest(Rest(s)))))
  }

  /** The deadline has passed when the gate is about to be opened. */
  predicate Expires(s: seq<Answer>, deadline: Option<int>) {
    deadline.Some? && Granted(s) && Clock(Rest(s)) >= deadline.value
  }

  /** The timeout is armed where there is one, and the gate opens or need not. */
  predicate Opens(s: seq<Answer>, deadline: Option<int>) {
    if deadline.None? then First(Resumed(s)) == Value(1)
    else Granted(s) && (Expires(s, deadline) || First(Resumed(Rest(Rest(s)))) == Value(1))
  }

  predicate Launches(s: seq<Answer>, req: Request) {
    Forks(s) && Watches(AfterFork(s)) && Opens(AfterWatches(AfterFork(s)), req.deadline)
  }

  /** The loop is valid, the request can be prepared, children can be waited for, and the launch succeeds. */
  predicate Starts(s: seq<Answer>, req: Request) {
    Granted(s) && Granted(Rest(s)) && Granted(Rest(Rest(s))) && Launches(Rest(Rest(Rest(s))), req)
  }

  /** What a slot that restarts asks for. */
  function SlotRequest(n: nat): Request {
    Request(if n % 2 == 0 then None else Some(n), n / 2)
  }

  /** The slot that runs next starts another run. */
  predicate SlotStarts(s: seq<Answer>) {
    First(s).Value? && First(s).n > 2 && Starts(Rest(s), SlotRequest(First(s).n))
  }

  /** The bytes of the launch channel after reading on, how that ended, and the answers left. */
  datatype Pulling = Pulling(bytes: nat, outcome: Pull, rest: seq<Answer>)

  function Pulls(s: seq<Answer>, have: nat): Pulling
    requires have < CHILD_ERROR_BYTES
    decreases |s|
  {
    var a := First(s);
    if a == Fail(EAGAIN) then Pulling(have, WouldBlock, Rest(s))
    else if a == Fail(EINTR) then Pulls(Rest(s), have)
    else if a.Fail? then Pulling(have, Broken, Rest(s))
    else if !a.Value? || a.n == 0 then Pulling(have, Ended, Rest(s))
    else if have + a.n < CHILD_ERROR_BYTES then Pulls(Rest(s), have + a.n)
    else Pulling(CHILD_ERROR_BYTES, Complete(Clock(Rest(s))), Rest(Rest(s)))
  }

  /** The launch channel is settled by what is read next. */
  predicate StatusSettles(s: seq<Answer>, have: nat) {
    have < CHILD_ERROR_BYTES && !Pulls(s, have).outcome.WouldBlock?
  }

  class Native {
    var script: seq<Answer>
    ghost var taken: seq<Input>  // the calls and events the owner took, in order

    constructor (script: seq<Answer>)
      ensures this.script == script && taken == []
    {
      this.script, taken := script, [];
    }

    /** One native call. */
    method Next() returns (a: Answer)
      modifies this`script
      ensures a == First(old(script)) && script == Rest(old(script))
    {
      if script == [] {
        a := Fail(EAGAIN);
      } else {
        a := script[0];
        script := script[1..];
      }
    }

    /** A native call that is issued again for as long as it is interrupted. */
    method Retry() returns (a: Answer)
      modifies this`script
      ensures a == First(Resumed(old(script))) && script == Rest(Resumed(old(script)))
      ensures a != Fail(EINTR) && |script| <= |old(script)|
    {
      a := Next();
      while a == Fail(EINTR)
        invariant |script| <= |old(script)|
        invariant if a == Fail(EINTR) then Resumed(script) == Resumed(old(script))
                  else a == First(Resumed(old(script))) && script == Rest(Resumed(old(script)))
        decreases |script|, a == Fail(EINTR)
      {
        a := Next();
      }
    }

    /** Read the launch channel until it is complete, ends, fails or would block. */
    method PullStatus(have: nat) returns (bytes: nat, outcome: Pull)
      requires have < CHILD_ERROR_BYTES
      modifies this`script
      ensures Pulls(old(script), have) == Pulling(bytes, outcome, script)
      ensures !outcome.Complete? ==> bytes < CHILD_ERROR_BYTES
      ensures |script| <= |old(script)|
    {
      bytes := have;
      while bytes < CHILD_ERROR_BYTES
        invariant bytes <= CHILD_ERROR_BYTES && |script| <= |old(script)|
        invariant Pulls(old(script), have) == if bytes < CHILD_ERROR_BYTES then Pulls(script, bytes)
                                              else Pulling(bytes, Complete(Clock(script)), Rest(script))
        decreases |script|, CHILD_ERROR_BYTES - bytes
      {
        var a := Next();
        if a.Value? && a.n > 0 {
          bytes := bytes + Min(a.n, CHILD_ERROR_BYTES - bytes);
        } else if a == Fail(EAGAIN) {
          return bytes, WouldBlock;
        } else if a != Fail(EINTR) {
          return bytes, if a.Fail? then Broken else Ended;
        }
      }
      var stage := Now();
      return bytes, Complete(stage);
    }

    /** A reading of the monotonic clock. */
    method Now() returns (t: nat)
      modifies this`script
      ensures t == Clock(old(script)) && script == Rest(old(script))
    {
      var a := Next();
      t := if a.Value? then a.n else 0;
    }

    /** A native call of which only success or failure matters. */
    method Succeeds() returns (ok: bool)
      modifies this`script
      ensures ok == Granted(old(script)) && script == Rest(old(script))
    {
      var a := Next();
      ok := a == Value(0);
    }
  }

  class Process {
    const os: Native

    var state: ProcessState
    var request: Option<Request>
    var generation: nat
    var leader: Leader
    var launch: Launch
    var out: Channel
    var err: Channel
    var timers: Timers
    var terminationDeadline: int
    var stopKind: Option<ExitKind>
    var exit: ProcessExit
    var halted: bool                   // std::terminate was reached
    var destroyed: bool

    ghost var log: Ledger
    ghost var completed: set<nat>      // the children whose completion was emitted and delivered
    ghost var late: Late

    // ---------- Invariant ----------

    ghost predicate Idle()
      reads this
    {
      && state.NotRunning? && request.None? && leader == NO_LEADER && launch == NO_LAUNCH
      && out == CLOSED_CHANNEL && err == CLOSED_CHANNEL && timers == NO_TIMERS
      && stopKind.None? && exit == EMPTY_EXIT && late == NEVER_LATE
    }

    /** Ownership of the child, and the observation recorded once it is reaped. */
    ghost predicate Identity()
      reads this
    {
      && log.run.accepted && !log.run.settled
      && leader.reaped == log.run.reaped
      && (leader.reaped <==> state.Finishing?)
      && leader.killAttempted == log.run.groupKilled
      && leader.anchor == (if leader.reaped || leader.exitObserved then None else Some(generation))
      && (if leader.reaped
          then leader.pid == -1 && leader.group == -1 && leader.killAttempted
               && log.run.status.Some? && Observes(exit, log.run.status.value)
          else leader.pid > 0 && leader.group == leader.pid && exit.exitCode.None? && exit.signalNumber.None?)
    }

    ghost predicate StopLinks()
      reads this
    {
      && stopKind == log.run.stop
      && (stopKind.Some? ==> StopCause(stopKind.value))
      && (state.Starting? || state.Running? ==> stopKind.None?)
      && (state.Stopping? ==> stopKind.Some?)
      && (!launch.gateReleased ==> stopKind.Some?)
      && (leader.exitObserved ==> state.Stopping?)
    }

    ghost predicate LaunchLinks()
      reads this
    {
      && launch.resolved == log.run.launch.Some?
      && launch.anchor == (if launch.resolved then None else Some(generation))
      && (launch.resolved ==> log.run.launch.value == (exit.startError.None? && launch.gateReleased))
      && log.run.started == (log.run.launch == Some(true))
      && (!launch.resolved ==> launch.bytes < CHILD_ERROR_BYTES && exit.startError.None? && !log.run.output)
      && (exit.startError.Some? ==> !exit.startError.value.Foreign?)
    }

    ghost predicate ChannelOk(ch: Channel, end: End, reportedLost: bool)
      reads this
    {
      && end == End(ch.terminal, reportedLost) && (reportedLost ==> ch.terminal)
      && (ch.terminal ==> launch.resolved && ch.anchor.None?)
      && (ch.anchor.Some? ==> ch.anchor.value == generation)
      && (!ch.terminal && ch.anchor.None? ==> leader.reaped)
    }

    /** The timeout is armed exactly while an unstopped run has a deadline. */
    ghost predicate TimerLinks()
      requires request.Some?
      reads this
    {
      && timers.timeout == (if (state.Starting? || state.Running?) && request.value.deadline.Some? then Some(generation)
                            else None)
      && (timers.termination.Some? ==> timers.termination.value == generation && state.Stopping?)
      && (timers.postReap.Some? ==> timers.postReap.value == generation && leader.reaped)
    }

    ghost predicate Active()
      reads this
    {
      && !state.NotRunning? && request.Some?
      && Identity() && StopLinks() && LaunchLinks() && TimerLinks()
      && ChannelOk(out, log.run.out, exit.stdoutLost) && ChannelOk(err, log.run.err, exit.stderrLost)
    }

    /** The history is lawful, is summarised by `run`, and knows nothing of later children. */
    ghost predicate Recorded()
      reads this
    {
      && Lawful(log.history)
      && log.run == RunOf(log.history, log.child)
      && Newest(log.history) <= log.child
      && (forall c :: c in completed ==> Finished(log.history, c))
    }

    /** A run is under way, and exactly that run is owed a completion. */
    ghost predicate Live()
      reads this
    {
      Recorded() && Owed(log.history) == 1 && Active()
    }

    ghost predicate Core()
      reads this
    {
      if state.NotRunning? then Recorded() && Owed(log.history) == 0 && Idle() else Live()
    }

    /** An event is still to come that will end the run: the exit, the end of the grace, or the last drain. */
    ghost predicate Attended()
      reads this
    {
      if state.Finishing? then timers.postReap.Some?
      else if leader.exitObserved then timers.termination.Some? && !leader.killAttempted
      else !leader.notified
    }

    /** The child was not there when it was waited for, and nothing will wait for it again. */
    ghost predicate Forsaken()
      reads this
    {
      !state.NotRunning? && !leader.reaped && leader.killAttempted && (leader.notified || leader.exitObserved)
    }

    /** Each flag names a state that no pending event ends; without them the run is attended. */
    ghost predicate Watched()
      reads this
    {
      && (late.wait ==> Forsaken())
      && (late.status ==> state.Finishing? && timers.postReap.None? && out.anchor.None? && err.anchor.None?)
      && (!state.NotRunning? && late == NEVER_LATE ==> Attended())
    }

    /** Between events a run is watched, and a reaped one has an open output. */
    ghost predicate Valid()
      reads this
    {
      Core() && Watched() && (state.Finishing? ==> !(out.terminal && err.terminal))
    }

    ghost predicate Usable()
      reads this
    {
      Valid() && !halted && !destroyed
    }

    /** No event of any kind can reach the run any more. */
    ghost predicate Stuck()
      reads this
    {
      && state.Finishing? && launch.anchor.None? && leader.anchor.None?
      && out.anchor.None? && err.anchor.None? && timers == NO_TIMERS
    }

    /** Only the launch channel can still reach the run, and nothing bounds its outputs any more. */
    ghost predicate Stranded()
      reads this
    {
      && state.Finishing? && !launch.resolved && leader.anchor.None?
      && out.anchor.None? && err.anchor.None? && timers == NO_TIMERS
    }

    predicate Ready()
      reads this
    {
      leader.reaped && launch.resolved && out.terminal && err.terminal
    }

    constructor (os: Native)
      ensures Usable() && this.os == os && Idle() && log.history == Nothing && completed == {}
    {
      this.os := os;
      state, request, generation := NotRunning, None, 0;
      leader, launch, timers, terminationDeadline := NO_LEADER, NO_LAUNCH, NO_TIMERS, 0;
      out, err, stopKind, exit := CLOSED_CHANNEL, CLOSED_CHANNEL, None, EMPTY_EXIT;
      halted, destroyed := false, false;
      log, completed, late := Ledger(Nothing, 0, NEW_RUN), {}, NEVER_LATE;
    }

    ghost method Log(e: Event)
      requires Recorded() && e.c == log.child && Allowed(log.run, e)
      modifies this`log
      ensures log == Ledger(Then(old(log.history), e), old(log.child), After(old(log.run), e))
      ensures Recorded()
    {
      log := Ledger(Then(log.history, e), log.child, After(log.run, e));
    }

    // ---------- Signals and stopping ----------

    method AttemptGroupKill()
      requires Live()
      modifies this`leader, this`log, os`script
      ensures Live()
      ensures leader.reaped == old(leader.reaped) && leader.exitObserved == old(leader.exitObserved)
      ensures leader.notified == old(leader.notified)
      ensures leader.killAttempted == (old(leader.killAttempted) || leader.group > 0)
      ensures log.child == old(log.child) && log.run.output == old(log.run.output)
      ensures old(leader.killAttempted) || leader.group <= 0 ==> log == old(log) && os.script == old(os.script)
      ensures !old(leader.killAttempted) && leader.group > 0 ==>
                os.script == Rest(old(os.script))
                && log.history == Then(old(log.history), GroupSignalled(log.child, Kill))
      ensures |os.script| <= |old(os.script)|
    {
      if leader.killAttempted || leader.group <= 0 {
        return;
      }
      leader := leader.(killAttempted := true);
      var delivered := os.Next();  // a failure is only reported
      Log(GroupSignalled(log.child, Kill));
    }

    /** Ask the whole group to terminate; the answer is the caller's to judge. */
    method RequestTermination() returns (delivered: Answer)
      requires Live() && (state.Starting? || state.Running?)
      modifies this`log, os`script
      ensures Live() && log.child == old(log.child) && log.run.output == old(log.run.output)
      ensures log.history == Then(old(log.history), GroupSignalled(log.child, Term))
      ensures delivered == First(old(os.script)) && os.script == Rest(old(os.script))
    {
      delivered := os.Next();
      Log(GroupSignalled(log.child, Term));
    }

    /** Fix the stop cause for good. */
    method FixCause(kind: ExitKind)
      requires Live() && (state.Starting? || state.Running?) && StopCause(kind)
      modifies this`state, this`stopKind, this`timers, this`log
      ensures Live() && state.Stopping? && stopKind == Some(kind)
      ensures timers == old(timers).(timeout := None)
      ensures log.child == old(log.child) && log.run.output == old(log.run.output)
    {
      stopKind := Some(kind);
      state := Stopping;
      timers := timers.(timeout := None);
      Log(StopAccepted(log.child, kind));
    }

    /** Arm the termination timer, or escalate at once when that is impossible. */
    method ArmTermination()
      requires Live() && state.Stopping?
      modifies this`timers, this`terminationDeadline, this`leader, this`log, os`script
      ensures Live()
      ensures leader.reaped == old(leader.reaped) && leader.exitObserved == old(leader.exitObserved)
      ensures leader.notified == old(leader.notified)
      ensures log.child == old(log.child) && (old(leader.killAttempted) ==> leader.killAttempted)
      ensures log.run.output == old(log.run.output)
      ensures leader.killAttempted || timers.termination.Some?
      ensures terminationDeadline == Deadline(Clock(old(os.script)), request.value.grace)
      ensures if Granted(Rest(old(os.script)))
              then timers == old(timers).(termination := Some(generation)) && leader == old(leader) && log == old(log)
              else timers == old(timers) && leader.killAttempted
      ensures |os.script| <= |old(os.script)|
    {
      var now := os.Now();
      terminationDeadline := Deadline(now, request.value.grace);
      var armed := os.Succeeds();
      if armed {
        timers := timers.(termination := Some(generation));
      } else {
        AttemptGroupKill();
      }
    }

    method BeginStopping(kind: ExitKind)
      requires Live() && (state.Starting? || state.Running?) && StopCause(kind)
      modifies this`state, this`stopKind, this`timers, this`terminationDeadline, this`leader, this`log, os`script
      ensures Live() && state.Stopping? && stopKind == Some(kind)
      ensures leader.reaped == old(leader.reaped) && leader.exitObserved == old(leader.exitObserved)
      ensures leader.notified == old(leader.notified)
      ensures log.child == old(log.child) && (old(leader.killAttempted) ==> leader.killAttempted)
      ensures log.run.output == old(log.run.output)
      ensures leader.killAttempted || timers.termination.Some?
      ensures request.value.grace == 0 ==>
                leader.killAttempted && timers == old(timers).(timeout := None)
                && terminationDeadline == old(terminationDeadline)
      ensures request.value.grace > 0 ==>
                && terminationDeadline == Deadline(Clock(old(os.script)), request.value.grace)
                && if Granted(Rest(old(os.script))) then timers.termination == Some(generation) && leader == old(leader)
                   else leader.killAttempted && timers == old(timers).(timeout := None)
      ensures |os.script| <= |old(os.script)|
    {
      FixCause(kind);
      if request.value.grace == 0 {
        AttemptGroupKill();
      } else {
        ArmTermination();
      }
    }

    /** What a stop() call may change: a first cause while nothing is fixed yet, and a first group kill. */
    twostate predicate StopStep()
      reads this
    {
      && leader.reaped == old(leader.reaped) && leader.exitObserved == old(leader.exitObserved)
      && leader.notified == old(leader.notified)
      && log.child == old(log.child) && (old(leader.killAttempted) ==> leader.killAttempted)
      && (old(stopKind).Some? ==> stopKind == old(stopKind)) && (old(log.run.output) ==> log.run.output)
      && (old(state).NotRunning? || old(state).Stopping? || old(state).Finishing? ==>
            state == old(state) && stopKind == old(stopKind) && timers == old(timers)
            && leader == old(leader) && log == old(log))
    }

    /** stop() during a run: the first accepted cause wins, and a reaped group is never signalled. */
    method StopRun(reason: StopReason) returns (r: StopResult)
      requires Live()
      modifies this`state, this`stopKind, this`timers, this`terminationDeadline, this`leader, this`log, os`script
      ensures Live() && StopStep()
      ensures r.StopOk? ==> stopKind == Some(if reason == CancelledReason then Cancelled else Interrupted)
      ensures !r.StopOk? ==> state == old(state) && stopKind == old(stopKind)
      ensures r.StopConflict? <==> old(stopKind).Some? && old(stopKind) != Some(RequestedKind(reason))
      ensures r.StopInvalidState? <==> old(state).Finishing? && old(stopKind).None?
      ensures r.StopSignalFailed? <==> (old(state).Starting? || old(state).Running?) && Refused(First(old(os.script)))
      ensures |os.script| <= |old(os.script)|
    {
      if state.Stopping? || state.Finishing? {
        return if stopKind.None? then StopInvalidState
               else if stopKind == Some(RequestedKind(reason)) then StopOk else StopConflict;
      }
      var delivered := RequestTermination();
      if delivered.Fail? && delivered.error != ESRCH {
        return StopSignalFailed;
      }
      BeginStopping(RequestedKind(reason));
      return StopOk;
    }

    /** stop(): nothing can be stopped while no run is under way. */
    method Stop(reason: StopReason) returns (r: StopResult)
      requires Usable()
      modifies this`state, this`stopKind, this`timers, this`terminationDeadline, this`leader, this`log, os`script
      ensures Usable() && StopStep()
      ensures r.StopOk? ==> stopKind == Some(if reason == CancelledReason then Cancelled else Interrupted)
      ensures !r.StopOk? ==> state == old(state) && stopKind == old(stopKind)
      ensures r.StopConflict? <==> old(stopKind).Some? && old(stopKind) != Some(RequestedKind(reason))
      ensures r.StopInvalidState? <==> old(state).NotRunning? || (old(state).Finishing? && old(stopKind).None?)
      ensures r.StopSignalFailed? <==> (old(state).Starting? || old(state).Running?) && Refused(First(old(os.script)))
      ensures |os.script| <= |old(os.script)|
    {
      if state.NotRunning? {
        return StopInvalidState;
      }
      r := StopRun(reason);
    }

    /** Nothing a stop() call may change has changed. */
    twostate predicate StopIdle()
      reads this
    {
      state == old(state) && stopKind == old(stopKind) && timers == old(timers) && leader == old(leader) && log == old(log)
    }

    /** The slots connected to started and to the output signals: any number of stop() calls. */
    method RunSlots()
      requires Live()
      modifies this`state, this`stopKind, this`timers, this`terminationDeadline, this`leader, this`log, os`script
      ensures Live() && StopStep()
      ensures |os.script| <= |old(os.script)|
      ensures old(os.script) == [] ==> state == old(state) && timers == old(timers)
      ensures SlotStops(old(os.script)) && (old(state).Starting? || old(state).Running?) ==>
                stopKind == Some(SlotKind(old(os.script)))
      ensures NoSlot(old(os.script)) ==> os.script == Rest(old(os.script)) && StopIdle()
      decreases |os.script|
    {
      var a := os.Next();
      if a == Value(1) || a == Value(2) {
        var r := StopRun(if a == Value(1) then CancelledReason else InterruptedReason);
        RunSlots();
      }
    }

    // ---------- The launch channel ----------

    /** What resolving the launch channel, and the slots it runs, may change. */
    twostate predicate LaunchStep()
      reads this
    {
      && leader.reaped == old(leader.reaped) && leader.exitObserved == old(leader.exitObserved)
      && leader.notified == old(leader.notified)
      && launch.gateReleased == old(launch.gateReleased) && exit == old(exit).(startError := exit.startError)
      && log.child == old(log.child) && (old(leader.killAttempted) ==> leader.killAttempted)
      && (old(stopKind).Some? ==> stopKind == old(stopKind))
      && (old(launch.resolved) ==>
            launch == old(launch) && exit == old(exit) && state == old(state) && stopKind == old(stopKind)
            && timers == old(timers) && leader == old(leader) && log == old(log))
      && (old(state).Stopping? || old(state).Finishing? ==>
            state == old(state) && stopKind == old(stopKind) && timers == old(timers) && leader == old(leader))
      && (!old(launch.resolved) && !launch.resolved ==> log == old(log) && leader == old(leader))
    }

    /** The channel is settled: retire it, and report a clean launch. */
    method SettleStatus(error: Option<StartError>)
      requires Live() && !launch.resolved && (error.Some? ==> !error.value.Foreign?)
      modifies this`launch, this`exit
      modifies this`state, this`log
      ensures Live() && launch.resolved && exit == old(exit).(startError := error)
      ensures launch.gateReleased == old(launch.gateReleased) && !launch.watched
      ensures state == if error.None? && launch.gateReleased && old(state).Starting? then Running else old(state)
      ensures log.child == old(log.child)
    {
      exit := exit.(startError := error);
      launch := launch.(resolved := true, anchor := None, watched := false);
      Log(LaunchResolved(log.child, error.None? && launch.gateReleased));
      if error.None? && launch.gateReleased {
        if state.Starting? {
          state := Running;
        }
        Log(StartedEmitted(log.child));
      }
    }

    /** Settle the channel and, after a clean launch, run the slots of started. */
    method Settle(error: Option<StartError>)
      requires Live() && !launch.resolved && (error.Some? ==> !error.value.Foreign?)
      modifies this`launch, this`exit
      modifies this`state, this`stopKind, this`timers, this`terminationDeadline, this`leader, this`log, os`script
      ensures Live() && LaunchStep() && launch.resolved && exit.startError == error
      ensures |os.script| <= |old(os.script)|
      ensures error.None? && launch.gateReleased && (old(state).Starting? || old(state).Running?) ==>
                (SlotStops(old(os.script)) ==> stopKind == Some(SlotKind(old(os.script))))
      ensures error.Some? || !launch.gateReleased ==> os.script == old(os.script) && state == old(state)
      ensures error.None? && launch.gateReleased && NoSlot(old(os.script)) ==> os.script == Rest(old(os.script))
    {
      SettleStatus(error);
      if error.None? && launch.gateReleased {
        RunSlots();
      }
    }

    method ReadStatus()
      requires Live()
      modifies this`launch, this`exit
      modifies this`state, this`stopKind, this`timers, this`terminationDeadline, this`leader, this`log, os`script
      ensures Live() && LaunchStep()
      ensures |os.script| <= |old(os.script)|
      ensures !old(launch.resolved) ==>
                var pulled := Pulls(old(os.script), old(launch.bytes));
                if pulled.outcome.WouldBlock?
                then && !launch.resolved && launch.bytes == pulled.bytes && os.script == pulled.rest
                     && state == old(state) && timers == old(timers) && log == old(log)
                else launch.resolved && exit.startError == LaunchError(pulled.outcome, pulled.bytes)
      ensures !old(launch.resolved) && old(os.script) == [Value(0)] ==> launch.resolved && os.script == []
      ensures !old(launch.resolved) && old(launch.bytes) == 0 && CleanLaunch(old(os.script)) && launch.gateReleased ==>
                os.script == Rest(Rest(old(os.script)))
      ensures old(launch.resolved) ==> os.script == old(os.script)
    {
      if launch.resolved {
        return;
      }
      var bytes, outcome := os.PullStatus(launch.bytes);
      if outcome.WouldBlock? {
        launch := launch.(bytes := bytes);
      } else {
        Settle(LaunchError(outcome, bytes));
      }
    }

    // ---------- Output ----------

    function Output(index: nat): Channel
      reads this
    {
      if index == 0 then out else err
    }

    function Other(index: nat): Channel
      reads this
    {
      if index == 0 then err else out
    }

    method SetOutput(index: nat, ch: Channel)
      modifies this`out, this`err
      ensures Output(index) == ch && Other(index) == old(Other(index))
    {
      if index == 0 {
        out := ch;
      } else {
        err := ch;
      }
    }

    method MarkLost(index: nat)
      modifies this`exit
      ensures exit == if index == 0 then old(exit).(stdoutLost := true) else old(exit).(stderrLost := true)
    {
      exit := if index == 0 then exit.(stdoutLost := true) else exit.(stderrLost := true);
    }

    /** No end of file was seen on this output. */
    predicate Lost(index: nat)
      reads this
    {
      if index == 0 then exit.stdoutLost else exit.stderrLost
    }

    /** Close an output for good, recording a loss when no end of file was seen. */
    method RetireOutput(index: nat, lost: bool)
      requires Live() && index < 2 && launch.resolved && !Output(index).terminal
      modifies this`out, this`err, this`exit, this`log
      ensures Live() && Output(index) == CLOSED_CHANNEL && Other(index) == old(Other(index))
      ensures log.child == old(log.child) && Lost(index) == lost && Lost(1 - index) == old(Lost(1 - index))
    {
      if lost {
        MarkLost(index);
      }
      SetOutput(index, CLOSED_CHANNEL);
      Log(OutputClosed(log.child, index, lost));
    }

    /** What a drain of one output may change. */
    twostate predicate DrainStep(index: nat)
      reads this
    {
      && Other(index) == old(Other(index)) && (index < 2 ==> Lost(1 - index) == old(Lost(1 - index)))
      && leader.reaped == old(leader.reaped) && leader.exitObserved == old(leader.exitObserved)
      && leader.notified == old(leader.notified)
      && (old(launch.resolved) ==> launch == old(launch))
      && log.child == old(log.child) && (old(leader.killAttempted) ==> leader.killAttempted)
      && (old(stopKind).Some? ==> stopKind == old(stopKind))
      && (old(state).Stopping? || old(state).Finishing? ==>
            state == old(state) && stopKind == old(stopKind) && timers == old(timers) && leader == old(leader))
    }

    ghost method NoteOutput(index: nat)
      requires Live() && index < 2 && launch.resolved && !Output(index).terminal
      modifies this`log
      ensures Live() && log.run.output && log.child == old(log.child)
    {
      Log(OutputEmitted(log.child, index));
    }

    /** One chunk was read: hand it to the slots of the output signal. */
    method EmitOutput(index: nat)
      requires Live() && index < 2 && launch.resolved && !Output(index).terminal
      modifies this`state, this`stopKind, this`timers, this`terminationDeadline, this`leader, this`log, os`script
      ensures Live() && DrainStep(index) && log.run.output
      ensures |os.script| <= |old(os.script)|
      ensures (old(state).Starting? || old(state).Running?) && SlotStops(old(os.script)) ==>
                stopKind == Some(SlotKind(old(os.script)))
    {
      NoteOutput(index);
      RunSlots();
    }

    /**
     One native read, with everything that follows from its answer: bytes are
     handed out, an end closes the output, an error closes it as lost.
     */
    method ReadChunk(index: nat, budget: nat) returns (count: nat, again: bool, ghost blocked: bool)
      requires Live() && index < 2 && launch.resolved && !Output(index).terminal && budget > 0
      modifies this`out, this`err, this`exit
      modifies this`state, this`stopKind, this`timers, this`terminationDeadline, this`leader, this`log, os`script
      ensures Live() && DrainStep(index)
      ensures Output(index) == if Output(index).terminal then CLOSED_CHANNEL else old(Output(index))
      ensures |os.script| <= |old(os.script)|
      ensures again && count == 0 ==> |os.script| < |old(os.script)|
      ensures var a := First(old(os.script));
              if a.Value? && a.n > 0 then
                && again && !blocked && count == Min(a.n, Min(PIPE_READ_CHUNK_BYTES, budget)) && !Output(index).terminal
                && log.run.output
                && ((old(state).Starting? || old(state).Running?) && SlotStops(Rest(old(os.script))) ==>
                      stopKind == Some(SlotKind(Rest(old(os.script)))))
              else
                && count == 0 && os.script == Rest(old(os.script)) && (again <==> a == Fail(EINTR))
                && (blocked <==> a == Fail(EAGAIN)) && (Output(index).terminal <==> !again && !blocked)
                && (Output(index).terminal ==> Lost(index) == a.Fail?)
    {
      var a := os.Next();
      blocked := a == Fail(EAGAIN);
      if a.Value? && a.n > 0 {
        EmitOutput(index);
        return Min(a.n, Min(PIPE_READ_CHUNK_BYTES, budget)), true, blocked;
      }
      if a != Fail(EINTR) && a != Fail(EAGAIN) {
        RetireOutput(index, a.Fail?);
      }
      return 0, a == Fail(EINTR), blocked;
    }

    /** Read until the budget is used up, the output ends or it would block; `total` is what was delivered. */
    method ReadChunks(index: nat) returns (total: nat, ghost blocked: bool)
      requires Live() && index < 2 && launch.resolved && !Output(index).terminal
      modifies this`out, this`err, this`exit
      modifies this`state, this`stopKind, this`timers, this`terminationDeadline, this`leader, this`log, os`script
      ensures Live() && DrainStep(index)
      ensures total <= PIPE_READ_BUDGET_BYTES
      ensures total == PIPE_READ_BUDGET_BYTES || Output(index).terminal || blocked
      ensures Output(index) == if Output(index).terminal then CLOSED_CHANNEL else old(Output(index))
      ensures |os.script| <= |old(os.script)|
      ensures old(os.script) == [] ==> total == 0 && !Output(index).terminal
      ensures First(old(os.script)) == Value(0) ==>
                total == 0 && Output(index).terminal && !Lost(index) && os.script == Rest(old(os.script))
    {
      total, blocked := 0, false;
      var again := true;
      while again && total < PIPE_READ_BUDGET_BYTES
        invariant Live() && DrainStep(index)
        invariant total <= PIPE_READ_BUDGET_BYTES && (again || Output(index).terminal || blocked)
        invariant Output(index).terminal ==> !again
        invariant Output(index) == if Output(index).terminal then CLOSED_CHANNEL else old(Output(index))
        invariant |os.script| <= |old(os.script)|
        invariant old(os.script) == [] ==> total == 0 && !Output(index).terminal
        invariant First(old(os.script)) == Value(0) ==>
                    total == 0 && if again then os.script == old(os.script)
                                  else Output(index).terminal && !Lost(index) && os.script == Rest(old(os.script))
        decreases again, PIPE_READ_BUDGET_BYTES - total, |os.script|
      {
        var count;
        count, again, blocked := ReadChunk(index, PIPE_READ_BUDGET_BYTES - total);
        total := total + count;
      }
    }

    /** The budget ran out with bytes left: queue a continuation, or give the capture up. */
    method QueueContinuation(index: nat)
      requires Live() && index < 2 && launch.resolved && !Output(index).terminal
      modifies this`out, this`err, this`exit, this`log, os`script
      ensures Live() && DrainStep(index)
      ensures if Granted(old(os.script)) then Output(index) == old(Output(index)).(continuationPending := true)
              else Output(index).terminal && Lost(index)
      ensures |os.script| <= |old(os.script)|
    {
      var posted := os.Succeeds();
      if posted {
        SetOutput(index, Output(index).(continuationPending := true));
      } else {
        RetireOutput(index, true);
      }
    }

    /** A drain is due on an open output without a queued continuation. */
    predicate Drains(index: nat)
      reads this
    {
      !Output(index).terminal && !Output(index).continuationPending
    }

    /** Read one budget, and queue a continuation when that leaves bytes behind. */
    method DrainResolved(index: nat) returns (ghost blocked: bool)
      requires Live() && index < 2 && launch.resolved && Drains(index)
      modifies this`out, this`err, this`exit
      modifies this`state, this`stopKind, this`timers, this`terminationDeadline, this`leader, this`log, os`script
      ensures Live() && DrainStep(index)
      ensures Output(index).terminal || Output(index) == old(Output(index)).(continuationPending := true)
              || (Output(index) == old(Output(index)) && blocked)
      ensures First(old(os.script)) == Value(0) ==>
                Output(index).terminal && !Lost(index) && os.script == Rest(old(os.script))
      ensures old(os.script) == [] ==> Output(index) == old(Output(index))
      ensures |os.script| <= |old(os.script)|
    {
      var total;
      total, blocked := ReadChunks(index);
      if !Output(index).terminal && total == PIPE_READ_BUDGET_BYTES {
        QueueContinuation(index);
      }
    }

    /**
     A drain on readiness: at most one budget, never past an unresolved launch
     channel. An output it leaves open would block, or has a continuation queued.
     */
    method DrainOutput(index: nat) returns (ghost blocked: bool)
      requires Live() && index < 2
      modifies this`out, this`err, this`launch, this`exit
      modifies this`state, this`stopKind, this`timers, this`terminationDeadline, this`leader, this`log, os`script
      ensures Live() && DrainStep(index)
      ensures Output(index).anchor == old(Output(index).anchor) || Output(index).terminal
      ensures old(Output(index).terminal) ==> Output(index).terminal
      ensures old(Drains(index)) && launch.resolved ==>
                Output(index).terminal || Output(index).continuationPending || blocked
      ensures old(Drains(index)) && !old(launch.resolved) ==>
                (launch.resolved <==> !Pulls(old(os.script), old(launch.bytes)).outcome.WouldBlock?)
      ensures old(Drains(index)) && old(launch.resolved) && First(old(os.script)) == Value(0) ==>
                Output(index).terminal && !Lost(index) && os.script == Rest(old(os.script))
      ensures !old(Drains(index)) ==> os.script == old(os.script) && Output(index) == old(Output(index))
      ensures |os.script| <= |old(os.script)|
      ensures old(os.script) == [] ==> launch.resolved == old(launch.resolved) && Output(index) == old(Output(index))
    {
      blocked := false;
      if Output(index).terminal || Output(index).continuationPending {
        return;
      }
      ReadStatus();
      if launch.resolved {
        blocked := DrainResolved(index);
      }
    }

    /** Retire every entry point of an output whose child was reaped. */
    method InvalidateOutputWork(index: nat)
      requires Live() && state.Finishing? && index < 2 && !Output(index).terminal
      modifies this`out, this`err
      ensures Live() && Output(index) == Channel(None, false, false, false) && Other(index) == old(Other(index))
    {
      SetOutput(index, Channel(None, false, false, false));
    }

    /** Read what the budget still allows, then close the output whatever was read. */
    method ForceTerminal(index: nat) returns (ghost ended: bool)
      requires Live() && state.Finishing? && index < 2 && launch.resolved && !Output(index).terminal
      modifies this`out, this`err, this`exit
      modifies this`state, this`stopKind, this`timers, this`terminationDeadline, this`leader, this`log, os`script
      ensures Live() && state.Finishing? && DrainStep(index) && Output(index).terminal && (!ended ==> Lost(index))
      ensures First(old(os.script)) == Value(0) ==> !Lost(index) && os.script == Rest(old(os.script))
      ensures |os.script| <= |old(os.script)|
    {
      var total;
      ghost var blocked;
      total, blocked := ReadChunks(index);
      ended := Output(index).terminal;
      if !Output(index).terminal {
        RetireOutput(index, true);
      }
    }

    /**
     The last drain of an output after the child was reaped: every other entry
     point is retired first, and the output is closed whatever was read, unless
     the launch channel is still unresolved.
     */
    method FinalDrain(index: nat)
      requires Live() && state.Finishing? && index < 2 && !Output(index).terminal
      modifies this`out, this`err, this`launch, this`exit
      modifies this`state, this`stopKind, this`timers, this`terminationDeadline, this`leader, this`log, os`script
      ensures Live() && state.Finishing? && DrainStep(index)
      ensures if launch.resolved
              then Output(index).terminal
              else Output(index) == Channel(None, false, false, false)
      ensures !old(launch.resolved) ==>
                (launch.resolved <==> !Pulls(old(os.script), old(launch.bytes)).outcome.WouldBlock?)
      ensures old(launch.resolved) && First(old(os.script)) == Value(0) ==>
                !Lost(index) && os.script == Rest(old(os.script))
      ensures |os.script| <= |old(os.script)|
      ensures old(os.script) == [] ==> launch.resolved == old(launch.resolved)
    {
      InvalidateOutputWork(index);
      ReadStatus();
      if launch.resolved {
        ghost var ended := ForceTerminal(index);
      }
    }

    // ---------- Completion ----------

    /** Kill and reap a child that is given up rather than completed. */
    method Discard()
      requires Recorded() && leader.pid > 0
      requires !log.run.reaped && !log.run.settled && (log.run.accepted ==> leader.group > 0)
      modifies this`log, os`script
      ensures Recorded() && log.child == old(log.child) && Owed(log.history) == old(Owed(log.history))
      ensures log.run.reaped && !log.run.settled && log.run.accepted == old(log.run.accepted)
      ensures var killed := if leader.group > 0 then Then(old(log.history), GroupSignalled(log.child, Kill))
                            else old(log.history);
              log.history == Then(Then(killed, LeaderKilled(log.child)), Reaped(log.child, None))
      ensures |os.script| <= |old(os.script)|
    {
      if leader.group > 0 {
        var delivered := os.Next();
        Log(GroupSignalled(log.child, Kill));
      }
      var delivered := os.Next();
      ghost var h := log.history;
      Log(LeaderKilled(log.child));
      assert Owed(log.history) == Owed(h);
      var waited := os.Retry();  // the answer is not consulted
      Log(Reaped(log.child, None));
    }

    /** Return to idle, killing and reaping whatever is still owned. */
    method Cleanup()
      requires Recorded()
      requires leader.pid > 0 ==> !log.run.reaped && !log.run.settled && (log.run.accepted ==> leader.group > 0)
      modifies this`state, this`request, this`leader, this`launch, this`out, this`err, this`timers
      modifies this`stopKind, this`exit, this`log, this`late, os`script
      ensures Recorded() && Idle() && log.child == old(log.child) && Owed(log.history) == old(Owed(log.history))
      ensures if old(leader.pid) <= 0
              then log == old(log)
              else log.run.reaped && !log.run.settled && log.run.accepted == old(log.run.accepted)
      ensures |os.script| <= |old(os.script)|
    {
      if leader.pid > 0 {
        Discard();
      }
      state, request, stopKind, exit := NotRunning, None, None, EMPTY_EXIT;
      leader, launch, timers := NO_LEADER, NO_LAUNCH, NO_TIMERS;
      out, err := CLOSED_CHANNEL, CLOSED_CHANNEL;
      late := NEVER_LATE;
    }

    /** The completion record of a run whose every part has come to an end. */
    function Result(): ProcessExit
      requires leader.reaped
      reads this
    {
      if stopKind.Some? then exit.(kind := stopKind.value, startError := None)
      else if exit.startError.Some? then exit.(kind := StartFailed, exitCode := None, signalNumber := None)
      else exit.(kind := if exit.exitCode.Some? then Exited else Signaled)
    }

    lemma ResultFits()
      requires Live() && Ready()
      ensures ExitFits(log.run, Result())
    {
      ObservedOnce(exit, log.run.status.value);
      if exit.startError.Some? {
        SetupCodesAreValid(exit.startError.value);
      }
    }

    /** Complete the run: everything is torn down before the record is emitted. */
    method Finish()
      requires Live() && Ready()
      modifies this`state, this`request, this`leader, this`launch, this`out, this`err, this`timers
      modifies this`stopKind, this`exit, this`log, this`late, os`script
      ensures Core() && state.NotRunning? && log.child == old(log.child)
      ensures log.history == Then(old(log.history), FinishedEmitted(log.child, old(Result())))
      ensures |os.script| <= |old(os.script)|
    {
      ResultFits();
      var result := Result();
      Cleanup();
      Log(FinishedEmitted(log.child, result));
    }

    /** The child was reaped: forget its identifiers before any slot can run again. */
    method RecordReap(status: nat)
      requires Live() && !leader.reaped && leader.killAttempted
      modifies this`state, this`leader, this`timers, this`exit, this`log
      ensures Live() && state.Finishing? && timers == NO_TIMERS && log.child == old(log.child)
    {
      timers := NO_TIMERS;
      leader := NO_LEADER.(killAttempted := true, reaped := true);
      state := Finishing;
      exit := if ExitedNormally(status)
              then exit.(exitCode := Some(ExitStatus(status)), signalNumber := None)
              else exit.(exitCode := None, signalNumber := Some(TermSignal(status)));
      Log(Reaped(log.child, Some(status)));
    }

    /** What completing a run leaves behind. */
    twostate predicate Completed()
      reads this
    {
      && Core() && state.NotRunning? && log.child == old(log.child)
      && Finished(log.history, log.child)
    }

    /** finish_if_ready(): `done` says that finished was emitted; its slots run when the event is over. */
    method CompleteIfReady() returns (done: bool)
      requires Live() && Watched()
      modifies this`state, this`request, this`leader, this`launch, this`out, this`err, this`timers
      modifies this`stopKind, this`exit, this`log, this`late, os`script
      ensures Valid() && done == old(Ready())
      ensures |os.script| <= |old(os.script)|
      ensures if done then Completed() else Live() && log == old(log)
      ensures !done ==> state == old(state) && launch == old(launch) && out == old(out) && err == old(err)
                        && timers == old(timers) && leader == old(leader) && exit == old(exit)
                        && late == old(late)
    {
      done := Ready();
      if done {
        Finish();
      }
    }

    /** Both outputs are read for the last time; the child's launch channel decides whether that closes them. */
    method FinalDrains()
      requires Live() && state.Finishing?
      modifies this`out, this`err, this`launch, this`exit
      modifies this`state, this`stopKind, this`timers, this`terminationDeadline, this`leader, this`log, os`script
      ensures Live() && state.Finishing? && log.child == old(log.child) && timers == old(timers)
      ensures old(launch.resolved) ==> Ready()
      ensures !Ready() ==> (out.terminal || out.anchor.None?) && (err.terminal || err.anchor.None?)
      ensures |os.script| <= |old(os.script)|
      ensures old(os.script) == [] ==> launch.resolved == old(launch.resolved)
    {
      if !out.terminal {
        FinalDrain(0);
      }
      if !err.terminal {
        FinalDrain(1);
      }
    }

    /** After the last drains nothing is left to wait for but the launch channel. */
    method FinishOrStrand() returns (done: bool)
      requires Live() && state.Finishing? && !late.wait && timers == NO_TIMERS
      requires out.anchor.None? && err.anchor.None?
      modifies this`state, this`request, this`leader, this`launch, this`out, this`err, this`timers
      modifies this`stopKind, this`exit, this`log, this`late, os`script
      ensures done == old(Ready())
      ensures if done then Completed()
              else Live() && late.status && log == old(log) && state == old(state) && timers == NO_TIMERS
                   && out == old(out) && err == old(err) && launch == old(launch) && leader == old(leader)
                   && !late.wait
      ensures |os.script| <= |old(os.script)|
    {
      done := Ready();
      if done {
        Finish();
      } else {
        late := late.(status := true);
      }
    }

    /** The post-reap deadline: the run completes, unless its launch channel was still unresolved. */
    method PostReapDrainExpired() returns (done: bool)
      requires Live() && state.Finishing? && !late.wait
      modifies this`state, this`request, this`leader, this`launch, this`out, this`err, this`timers
      modifies this`stopKind, this`terminationDeadline, this`exit, this`log, this`late, os`script
      ensures Valid()
      ensures if done then Completed()
              else Live() && state.Finishing? && late.status && timers == NO_TIMERS && log.child == old(log.child)
                   && out.anchor.None? && err.anchor.None?
      ensures old(launch.resolved) ==> done
      ensures |os.script| <= |old(os.script)|
      ensures old(os.script) == [] && !old(launch.resolved) ==> !done && !launch.resolved
    {
      timers := timers.(postReap := None);
      FinalDrains();
      done := FinishOrStrand();
    }

    /** A drain of both outputs on readiness. */
    method DrainOutputs() returns (ghost b0: bool, ghost b1: bool)
      requires Live()
      modifies this`out, this`err, this`launch, this`exit
      modifies this`state, this`stopKind, this`timers, this`terminationDeadline, this`leader, this`log, os`script
      ensures Live() && log.child == old(log.child)
      ensures leader.reaped == old(leader.reaped) && leader.exitObserved == old(leader.exitObserved)
      ensures leader.notified == old(leader.notified)
      ensures old(leader.killAttempted) ==> leader.killAttempted
      ensures old(state).Stopping? || old(state).Finishing? ==>
                state == old(state) && timers == old(timers) && leader == old(leader)
      ensures old(launch.resolved) ==> launch == old(launch)
      ensures old(out.anchor).None? ==> out.anchor.None?
      ensures old(err.anchor).None? ==> err.anchor.None?
      ensures |os.script| <= |old(os.script)|
      ensures old(os.script) == [] ==>
                launch.resolved == old(launch.resolved) && out == old(out) && err == old(err)
      ensures Closing(old(os.script)) && old(launch.resolved) && old(Drains(0)) && old(Drains(1)) ==>
                out.terminal && err.terminal && !Lost(0) && !Lost(1) && os.script == Rest(Rest(old(os.script)))
    {
      b0 := DrainOutput(0);
      b1 := DrainOutput(1);
    }

    /** Leave a deadline behind for outputs that stay open; without one, the deadline has passed. */
    method AwaitOutputs() returns (done: bool)
      requires Live() && state.Finishing? && timers == NO_TIMERS && !Ready() && late == NEVER_LATE
      modifies this`state, this`request, this`leader, this`launch, this`out, this`err, this`timers
      modifies this`stopKind, this`terminationDeadline, this`exit, this`log, this`late, os`script
      ensures Valid()
      ensures if done then Completed()
              else Live() && state.Finishing? && log.child == old(log.child)
      ensures |os.script| <= |old(os.script)|
      ensures old(os.script) == [] && !old(launch.resolved) ==> !done && Stranded()
      ensures Granted(Rest(old(os.script))) ==> !done && timers.postReap == Some(generation)
    {
      var now := os.Now();  // the deadline is Deadline(now, POST_REAP_DRAIN_TIMEOUT)
      var armed := os.Succeeds();
      if armed {
        timers := timers.(postReap := Some(generation));
        return false;
      }
      done := PostReapDrainExpired();
    }

    /** Complete a run that is ready, else wait for its outputs. */
    method FinishOrAwait() returns (done: bool)
      requires Live() && state.Finishing? && timers == NO_TIMERS && late == NEVER_LATE
      modifies this`state, this`request, this`leader, this`launch, this`out, this`err, this`timers
      modifies this`stopKind, this`terminationDeadline, this`exit, this`log, this`late, os`script
      ensures Valid()
      ensures if done then Completed()
              else Live() && state.Finishing? && log.child == old(log.child)
      ensures |os.script| <= |old(os.script)|
      ensures old(os.script) == [] && !old(launch.resolved) ==> !done && Stranded()
      ensures old(Ready()) ==> done
      ensures !old(Ready()) && Granted(Rest(old(os.script))) ==> !done && timers.postReap == Some(generation)
    {
      done := Ready();
      if done {
        Finish();
      } else {
        done := AwaitOutputs();
      }
    }

    /** Drain both outputs of a reaped child, then complete the run or wait for the rest of them. */
    method DrainReaped() returns (done: bool)
      requires Live() && state.Finishing? && timers == NO_TIMERS && late == NEVER_LATE
      modifies this`state, this`request, this`leader, this`launch, this`out, this`err, this`timers
      modifies this`stopKind, this`terminationDeadline, this`exit, this`log, this`late, os`script
      ensures Valid()
      ensures if done then Completed()
              else Live() && state.Finishing? && log.child == old(log.child)
      ensures |os.script| <= |old(os.script)|
      ensures old(os.script) == [] && !old(launch.resolved) ==> !done && Stranded()
      ensures Closing(old(os.script)) && old(launch.resolved) && old(Drains(0)) && old(Drains(1)) ==> done
    {
      ghost var b0, b1 := DrainOutputs();
      done := FinishOrAwait();
    }

    /** The child is reaped: drain, complete, or wait for what stays open. */
    method EnterFinishing(status: nat) returns (done: bool)
      requires Live() && !leader.reaped && leader.killAttempted && late == NEVER_LATE
      modifies this`state, this`request, this`leader, this`launch, this`out, this`err, this`timers
      modifies this`stopKind, this`terminationDeadline, this`exit, this`log, this`late, os`script
      ensures Valid()
      ensures if done then Completed()
              else Live() && state.Finishing? && log.child == old(log.child)
      ensures |os.script| <= |old(os.script)|
      ensures old(os.script) == [] && !old(launch.resolved) ==> !done && Stranded()
      ensures Closing(old(os.script)) && old(launch.resolved) && old(Drains(0)) && old(Drains(1)) ==> done
    {
      RecordReap(status);
      done := DrainReaped();
    }

    /** Wait for the child: an answer of zero gives up for good, and anyone else reaping it is fatal. */
    method ReapChild() returns (done: bool)
      requires Live() && !leader.reaped && leader.killAttempted && !halted && late == NEVER_LATE
      requires leader.notified || leader.exitObserved
      modifies this`state, this`request, this`leader, this`launch, this`out, this`err, this`timers, this`halted
      modifies this`stopKind, this`terminationDeadline, this`exit, this`log, this`late, os`script
      ensures !halted ==> Valid()
      ensures if done then Completed() && !halted else Live() && log.child == old(log.child)
      ensures !done && !halted ==> state.Finishing? || late.wait
      ensures |os.script| <= |old(os.script)|
      ensures |old(os.script)| == 1 && old(os.script)[0].Waited? && !old(launch.resolved) ==>
                !done && !halted && Stranded()
      ensures late.wait || halted ==> !done && timers == old(timers) && leader == old(leader) && log == old(log)
      ensures WaitDecides(Resumed(old(os.script)), done)
      ensures !done && !state.Finishing? ==> leader == old(leader)
      ensures Exits(Resumed(old(os.script))) && old(launch.resolved) && old(Drains(0)) && old(Drains(1)) ==> done
    {
      var a := os.Retry();
      if a == Value(0) {
        late := late.(wait := true);
        return false;
      }
      if !a.Waited? {
        halted := true;
        return false;
      }
      done := EnterFinishing(a.status);
    }

    // ---------- Launch ----------

    /** A child exists but nothing was promised about it yet. */
    ghost predicate Launching()
      reads this
    {
      && Recorded() && Owed(log.history) == 0 && log.run == NEW_RUN && request.Some?
      && leader.pid > 0 && leader == Leader(leader.pid, leader.group, leader.watched, Some(generation), false, false, false, false)
      && launch == Launch(Some(generation), launch.watched, false, false, 0)
      && out == Channel(Some(generation), out.watched, false, false)
      && err == Channel(Some(generation), err.watched, false, false)
      && timers == NO_TIMERS && stopKind.None? && exit == EMPTY_EXIT && late == NEVER_LATE
    }

    /** Adopt the newly created, still gated child under a new generation. */
    method AdoptChild(req: Request, pid: nat)
      requires Core() && state.NotRunning? && pid > 0
      modifies this`request, this`generation, this`leader, this`launch, this`out, this`err, this`log
      ensures Launching() && leader.group == -1 && leader.pid == pid && request == Some(req)
      ensures generation == old(generation) + 1 && log.child == old(log.child) + 1
      ensures !leader.watched && !launch.watched && !out.watched && !err.watched
    {
      request := Some(req);
      generation := generation + 1;
      launch := NO_LAUNCH.(anchor := Some(generation));
      out, err := Channel(Some(generation), false, false, false), Channel(Some(generation), false, false, false);
      leader := NO_LEADER.(pid := pid, anchor := Some(generation));
      LaterIsNew(log.history, log.child + 1);
      log := Ledger(log.history, log.child + 1, NEW_RUN);
    }

    /** Everything up to and including the creation of the gated child. */
    method ForkGated(req: Request) returns (ok: bool)
      requires Core() && state.NotRunning?
      modifies this`request, this`generation, this`leader, this`launch, this`out, this`err, this`log, os`script
      ensures state.NotRunning?
      ensures if ok then Launching() && leader.group == -1 && log.child == old(log.child) + 1 && request == Some(req)
              else Core() && log.child == old(log.child)
      ensures ok <==> Forks(old(os.script))
      ensures ok ==> leader.pid == ForkAnswer(old(os.script)).n && os.script == AfterFork(old(os.script))
      ensures |os.script| <= |old(os.script)|
    {
      var planned := os.Succeeds();
      if planned {
        var piped := os.Succeeds();
        if piped {
          var masked := os.Succeeds();
          if masked {
            var forked := os.Next();
            if forked.Value? && forked.n > 0 {
              AdoptChild(req, forked.n);
              return true;
            }
          }
        }
      }
      return false;
    }

    /** Give the child its group and install all four watches. */
    method InstallWatches() returns (ok: bool)
      requires Launching() && state.NotRunning?
      modifies this`leader, this`launch, this`out, this`err, os`script
      ensures Launching() && (ok ==> leader.group == leader.pid) && leader.pid == old(leader.pid)
      ensures ok <==> Watches(old(os.script))
      ensures ok ==> os.script == AfterWatches(old(os.script))
      ensures ok ==> leader.watched && launch.watched && out.watched && err.watched
      ensures |os.script| <= |old(os.script)|
    {
      ok := os.Succeeds();
      if ok {
        leader := leader.(group := leader.pid);
        ok := os.Succeeds();
        launch := launch.(watched := ok);
      }
      if ok {
        ok := WatchOutputs();
      }
      if ok {
        ok := os.Succeeds();
        leader := leader.(watched := ok);
      }
    }

    method WatchOutputs() returns (ok: bool)
      requires Launching() && state.NotRunning?
      modifies this`out, this`err, os`script
      ensures Launching() && |os.script| <= |old(os.script)|
      ensures ok <==> WatchesOutputs(old(os.script))
      ensures ok ==> out.watched && err.watched && os.script == Rest(Rest(old(os.script)))
    {
      ok := os.Succeeds();
      out := out.(watched := ok);
      if ok {
        ok := os.Succeeds();
        err := err.(watched := ok);
      }
    }

    /** The launch deadline passed with the gate still closed: accepted, stopped and killed at once. */
    method AcceptExpired()
      requires Launching() && leader.group == leader.pid
      modifies this`state, this`timers, this`stopKind, this`leader, this`log, os`script
      ensures Live() && state.Stopping? && stopKind == Some(TimedOut) && leader.killAttempted
      ensures log.child == old(log.child)
      ensures !leader.exitObserved && !leader.reaped && !leader.notified
      ensures |os.script| <= |old(os.script)|
    {
      stopKind := Some(TimedOut);
      state := Stopping;
      Log(StopAccepted(log.child, TimedOut));
      Log(Accepted(log.child));
      AttemptGroupKill();
    }

    /** The gate was opened: the launch is committed. */
    method AcceptRunning()
      requires Launching() && leader.group == leader.pid && state.NotRunning?
      modifies this`state, this`timers, this`launch, this`log
      ensures Live() && state.Starting? && log.child == old(log.child)
    {
      state := Starting;
      launch := launch.(gateReleased := true);
      if request.value.deadline.Some? {
        timers := timers.(timeout := Some(generation));
      }
      Log(Accepted(log.child));
    }

    /** Arm the launch deadline and open the gate. */
    method OpenGate() returns (accepted: bool)
      requires Launching() && leader.group == leader.pid && state.NotRunning?
      modifies this`state, this`timers, this`stopKind, this`launch, this`leader, this`log, os`script
      ensures log.child == old(log.child)
      ensures if accepted then Live() && Watched() && (state.Starting? || state.Stopping?) && !leader.exitObserved
              else Launching() && leader.group == leader.pid && state.NotRunning?
      ensures accepted <==> Opens(old(os.script), request.value.deadline)
      ensures accepted ==> (state.Stopping? <==> Expires(old(os.script), request.value.deadline))
      ensures accepted && state.Stopping? ==> stopKind == Some(TimedOut) && leader.killAttempted
      ensures |os.script| <= |old(os.script)|
    {
      if request.value.deadline.Some? {
        var armed := os.Succeeds();
        if !armed {
          return false;
        }
        var now := os.Now();
        if now >= request.value.deadline.value {
          AcceptExpired();
          return true;
        }
      }
      var sent := os.Retry();
      if sent != Value(1) {
        return false;
      }
      AcceptRunning();
      return true;
    }

    /** Launch one request: accepted with a completion owed, or rejected with nothing left behind. */
    method LaunchChild(req: Request) returns (accepted: bool)
      requires Core() && state.NotRunning?
      modifies this`state, this`request, this`generation, this`leader, this`launch, this`out, this`err, this`timers
      modifies this`stopKind, this`terminationDeadline, this`exit, this`log, this`late, os`script
      ensures Valid() && !state.Finishing? && accepted == !state.NotRunning? && log.child >= old(log.child)
      ensures accepted ==> log.child == old(log.child) + 1 && request == Some(req)
      ensures accepted <==> Launches(old(os.script), req)
      ensures accepted ==> (state.Stopping? <==> Expires(AfterWatches(AfterFork(old(os.script))), req.deadline))
      ensures |os.script| <= |old(os.script)|
    {
      accepted := false;
      var forked := ForkGated(req);
      if forked {
        var watched := InstallWatches();
        if watched {
          accepted := OpenGate();
        }
      }
      if !accepted {
        Cleanup();
      }
    }

    /** start(): only while idle, on a valid loop, with a preparable request and a usable signal configuration. */
    method Start(req: Request) returns (accepted: bool)
      requires Usable()
      modifies this`state, this`request, this`generation, this`leader, this`launch, this`out, this`err, this`timers
      modifies this`stopKind, this`terminationDeadline, this`exit, this`log, this`late, os`script
      ensures Usable()
      ensures !old(state).NotRunning? ==> !accepted && state == old(state) && log == old(log) && late == old(late)
      ensures old(Stuck()) ==> Stuck()
      ensures old(state).NotRunning? ==> accepted == !state.NotRunning? && !state.Finishing?
      ensures accepted ==> log.child == old(log.child) + 1 && request == Some(req)
      ensures accepted <==> old(state).NotRunning? && Starts(old(os.script), req)
      ensures log.child >= old(log.child)
      ensures |os.script| <= |old(os.script)|
    {
      if !state.NotRunning? {
        return false;
      }
      var loopValid := os.Succeeds();
      if !loopValid {
        return false;
      }
      var prepared := os.Succeeds();
      if !prepared {
        return false;
      }
      var waitable := os.Succeeds();
      if !waitable {
        return false;
      }
      accepted := LaunchChild(req);
    }

    // ---------- Events ----------

    /** The slots connected to finished: any number of start() and stop() calls. */
    method FinishedSlots()
      requires Usable() && !state.Finishing?
      modifies this`state, this`request, this`generation, this`leader, this`launch, this`out, this`err, this`timers
      modifies this`stopKind, this`terminationDeadline, this`exit, this`log, this`late, os`script
      ensures Usable() && !state.Finishing? && log.child >= old(log.child)
      ensures old(state).NotRunning? && log.child == old(log.child) ==> state.NotRunning?
      ensures old(state).NotRunning? && SlotStarts(old(os.script)) ==> log.child > old(log.child)
      decreases |os.script|
    {
      var a := os.Next();
      if a == Value(1) || a == Value(2) {
        var r := Stop(if a == Value(1) then CancelledReason else InterruptedReason);
        FinishedSlots();
      } else if a.Value? && a.n > 2 {
        var accepted := Start(SlotRequest(a.n));
        FinishedSlots();
      }
    }

    /** The completion of the newest child is delivered: the slots connected to finished run. */
    method DeliverFinished()
      requires Usable() && state.NotRunning? && Finished(log.history, log.child)
      modifies this`state, this`request, this`generation, this`leader, this`launch, this`out, this`err, this`timers
      modifies this`stopKind, this`terminationDeadline, this`exit, this`log, this`late, this`completed, os`script
      ensures Usable() && !state.Finishing? && completed == old(completed) + {old(log.child)}
      ensures !state.NotRunning? || SlotStarts(old(os.script)) ==> log.child > old(log.child)
    {
      completed := completed + {log.child};
      FinishedSlots();
    }

    method TakeContinuation(index: nat)
      requires Usable() && Live() && index < 2
      modifies this`out, this`err
      ensures Usable() && Live()
      ensures Output(index) == old(Output(index)).(continuationPending := false) && Other(index) == old(Other(index))
    {
      SetOutput(index, Output(index).(continuationPending := false));
    }

    /** The run of the given child and generation is still active. */
    ghost predicate Same(child: nat, g: nat)
      reads this
    {
      log.child == child && generation == g && !state.NotRunning?
    }

    /** A run that is over was completed and its completion delivered. */
    twostate predicate Delivers()
      reads this
    {
      !old(state).NotRunning? && !Same(old(log.child), old(generation)) ==> old(log.child) in completed
    }

    /** The launch is settled, the output is open, and no continuation is queued but the one that is delivered. */
    predicate Readable(index: nat, continuation: bool)
      reads this
    {
      launch.resolved && !Output(index).terminal && (continuation || !Output(index).continuationPending)
    }

    /** Drain one output, and complete the run if that was its last part. */
    method ServiceOutput(index: nat, continuation: bool) returns (done: bool)
      requires Usable() && Live() && index < 2
      modifies this`state, this`request, this`leader, this`launch, this`out, this`err, this`timers
      modifies this`stopKind, this`terminationDeadline, this`exit, this`log, this`late, os`script
      ensures Valid() && (done ==> Completed())
      ensures !done ==>
                Live() && log.child == old(log.child) && late.wait == old(late.wait) && Other(index) == old(Other(index))
      ensures done ==> !old(late.wait)
      ensures old(Readable(index, continuation)) && First(old(os.script)) == Value(0) ==>
                done || (Output(index).terminal && !Lost(index))
      ensures !continuation && old(Output(index).continuationPending && !Output(index).terminal) ==>
                !done && Output(index) == old(Output(index))
    {
      if continuation {
        TakeContinuation(index);
      }
      ghost var blocked := DrainOutput(index);
      done := CompleteIfReady();
    }

    /** Nothing of the launch channel was read, the gate is open, and both outputs wait to be drained. */
    ghost predicate Unlaunched()
      reads this
    {
      !launch.resolved && launch.bytes == 0 && launch.gateReleased && Drains(0) && Drains(1)
    }

    /** Settle the launch channel, then drain both outputs that waited for it. */
    method SettleAndDrain()
      requires Live()
      modifies this`out, this`err, this`launch, this`exit
      modifies this`state, this`stopKind, this`timers, this`terminationDeadline, this`leader, this`log, os`script
      ensures Live() && log.child == old(log.child)
      ensures leader.reaped == old(leader.reaped) && leader.exitObserved == old(leader.exitObserved)
      ensures leader.notified == old(leader.notified)
      ensures old(leader.killAttempted) ==> leader.killAttempted
      ensures old(state).Stopping? || old(state).Finishing? ==>
                state == old(state) && timers == old(timers) && leader == old(leader)
      ensures old(out.anchor).None? ==> out.anchor.None?
      ensures old(err.anchor).None? ==> err.anchor.None?
      ensures !old(launch.resolved) && old(os.script) == [Value(0)] ==>
                launch.resolved && out == old(out) && err == old(err)
      ensures !old(launch.resolved) && StatusSettles(old(os.script), old(launch.bytes)) ==> launch.resolved
      ensures old(Unlaunched()) && CleanLaunch(old(os.script)) && Closing(Rest(Rest(old(os.script)))) ==>
                out.terminal && err.terminal && !Lost(0) && !Lost(1)
    {
      ReadStatus();
      ghost var b0, b1 := DrainOutputs();
    }

    /** The launch channel has something to say; a run that this was the last part of is complete. */
    method ServiceStatus() returns (done: bool)
      requires Valid() && Live()
      modifies this`state, this`request, this`leader, this`launch, this`out, this`err, this`timers
      modifies this`stopKind, this`terminationDeadline, this`exit, this`log, this`late, os`script
      ensures Valid() && (done ==> Completed())
      ensures !done ==> Live() && log.child == old(log.child) && late.wait == old(late.wait)
      ensures done ==> !old(late.wait)
      ensures old(Stranded()) && old(os.script) == [Value(0)] ==> !done && Stuck()
      ensures !done && !old(launch.resolved) && StatusSettles(old(os.script), old(launch.bytes)) ==> launch.resolved
      ensures old(Unlaunched()) && CleanLaunch(old(os.script)) && Closing(Rest(Rest(old(os.script)))) ==>
                done || (out.terminal && err.terminal && !Lost(0) && !Lost(1))
    {
      SettleAndDrain();
      done := CompleteIfReady();
    }

    /** The exec-status descriptor became readable. */
    method StatusReady(g: nat)
      requires Usable()
      modifies this, os`script
      ensures old(launch.anchor) != Some(g) ==> unchanged(this)
      ensures Usable()
      ensures old(Stuck()) ==> Stuck() && log == old(log)
      ensures old(late.wait) ==> late.wait && log.child == old(log.child)
      ensures g == old(generation) && old(Stranded()) && old(os.script) == [Value(0)] ==> Stuck()
      ensures Delivers() && (!old(state).NotRunning? ==> Carried(old(generation)))
      ensures old(launch.anchor) == Some(g) && Same(old(log.child), g) ==>
                (StatusSettles(old(os.script), old(launch.bytes)) ==> launch.resolved)
    {
      if launch.anchor != Some(g) || g != generation {
        return;  // a callback of an earlier or retired registration
      }
      var done := ServiceStatus();
      if done {
        DeliverFinished();
      }
    }

    /** Drain one output of the run, for its queued continuation or for its descriptor. */
    method TakeOutput(index: nat, continuation: bool)
      requires Usable() && Live() && index < 2
      modifies this, os`script
      ensures Usable() && Delivers() && (Same(old(log.child), old(generation)) ==> Other(index) == old(Other(index)))
      ensures old(Readable(index, continuation)) && First(old(os.script)) == Value(0) ==>
                old(log.child) in completed || (Output(index).terminal && !Lost(index))
      ensures old(late.wait) ==> late.wait && log.child == old(log.child)
      ensures !continuation && old(Output(index).continuationPending && !Output(index).terminal) ==>
                Same(old(log.child), old(generation)) && Output(index) == old(Output(index))
    {
      var done := ServiceOutput(index, continuation);
      if done {
        DeliverFinished();
      }
    }

    /** An output descriptor became readable, or its queued continuation is delivered. */
    method OutputReady(index: nat, g: nat, continuation: bool)
      requires Usable() && index < 2
      modifies this, os`script
      ensures old(Output(index).anchor) != Some(g) ==> unchanged(this)
      ensures Delivers() && (Same(old(log.child), old(generation)) ==> Other(index) == old(Other(index)))
      ensures old(Output(index).anchor) == Some(g) && old(Readable(index, continuation))
              && First(old(os.script)) == Value(0) ==>
                old(log.child) in completed || (Output(index).terminal && !Lost(index))
      ensures Usable()
      ensures old(Stuck()) ==> Stuck() && log == old(log)
      ensures old(late.wait) ==> late.wait && log.child == old(log.child)
    {
      if Output(index).anchor != Some(g) || g != generation {
        return;
      }
      TakeOutput(index, continuation);
    }

    /** The child exited during its termination grace: keep it unreaped so that its group keeps its identity. */
    method HoldLeader()
      requires Live() && state.Stopping? && timers.termination.Some? && !leader.killAttempted
      requires late == NEVER_LATE
      modifies this`out, this`err, this`launch, this`exit
      modifies this`state, this`stopKind, this`timers, this`terminationDeadline, this`leader, this`log, os`script
      ensures Valid() && Live() && state.Stopping? && leader.exitObserved && log.child == old(log.child)
      ensures !leader.watched && timers == old(timers)
      ensures Closing(old(os.script)) && old(launch.resolved) && old(Drains(0)) && old(Drains(1)) ==>
                out.terminal && err.terminal
    {
      leader := leader.(exitObserved := true, anchor := None, watched := false);
      ghost var b0, b1 := DrainOutputs();
    }

    /** The launch channel blocks, the kill is answered, the child is reaped, and everything blocks from then on. */
    ghost predicate Strands(script: seq<Answer>) {
      |script| == 3 && script[0] == Fail(EAGAIN) && script[2].Waited?
    }

    /** An unreaped child whose exit was just reported, for the only time. */
    ghost predicate JustNotified()
      reads this
    {
      && Live() && !leader.reaped && !leader.exitObserved && !halted
      && leader.notified && late == NEVER_LATE
    }

    /** The answer to the wait decides: not there yet, somebody else reaped it, or reaped. */
    ghost predicate WaitDecides(s: seq<Answer>, done: bool)
      reads this
    {
      && (if done then First(s).Waited? else late.wait <==> First(s) == Value(0))
      && (halted <==> First(s) != Value(0) && !First(s).Waited?)
    }

    /** Clean the whole group, then wait for the exited child without blocking. */
    method CleanAndReap() returns (done: bool)
      requires JustNotified()
      modifies this`state, this`request, this`leader, this`launch, this`out, this`err, this`timers, this`halted
      modifies this`stopKind, this`terminationDeadline, this`exit, this`log, this`late, os`script
      ensures !halted ==> Valid()
      ensures if done then Completed() && !halted else Live() && log.child == old(log.child)
      ensures !done && !halted ==> state.Finishing? || late.wait
      ensures (|old(os.script)| == 2 && old(os.script)[1].Waited? && !old(launch.resolved)
               && !old(leader.killAttempted)) ==> !done && !halted && Stranded()
      ensures !done && late.wait ==> timers.termination.None?
      ensures !leader.exitObserved
      ensures !old(leader.killAttempted) ==> WaitDecides(Resumed(Rest(old(os.script))), done)
      ensures Exits(Resumed(Rest(old(os.script)))) && !old(leader.killAttempted) ==>
                (old(launch.resolved) && old(Drains(0)) && old(Drains(1)) ==> done)
    {
      timers := timers.(termination := None);
      AttemptGroupKill();
      done := ReapChild();
    }

    /** The leader of a group that still has its termination grace. */
    predicate InGrace()
      reads this
    {
      state.Stopping? && timers.termination.Some? && !leader.killAttempted
    }

    /** The child became waitable: hold it during its grace, else clean up its group and reap it. */
    method HoldOrReap() returns (done: bool)
      requires JustNotified()
      modifies this`state, this`request, this`leader, this`launch, this`out, this`err, this`timers, this`halted
      modifies this`stopKind, this`terminationDeadline, this`exit, this`log, this`late, os`script
      ensures !halted ==> Valid()
      ensures if done then Completed() && !halted else Live() && log.child == old(log.child)
      ensures !done && !halted ==> state.Finishing? || late.wait || leader.exitObserved
      ensures leader.exitObserved <==> old(InGrace()) && Clock(old(os.script)) < old(terminationDeadline)
      ensures leader.exitObserved ==> !done && !halted && !late.wait && timers == old(timers)
      ensures !old(InGrace()) && !old(leader.killAttempted) ==> WaitDecides(Resumed(Rest(old(os.script))), done)
      ensures !old(InGrace()) && !old(leader.killAttempted) && Exits(Resumed(Rest(old(os.script)))) ==>
                (old(launch.resolved) && old(Drains(0)) && old(Drains(1)) ==> done)
      ensures (|old(os.script)| == 2 && old(os.script)[1].Waited? && !old(launch.resolved) && !old(state).Stopping?
               && !old(leader.killAttempted)) ==> !done && !halted && Stranded()
    {
      if state.Stopping? && timers.termination.Some? && !leader.killAttempted {
        var now := os.Now();
        if now < terminationDeadline {
          HoldLeader();
          return false;
        }
      }
      done := CleanAndReap();
    }

    /** The exit of this child may still be reported. */
    ghost predicate ExitDue(g: nat)
      reads this
    {
      g == generation && !state.NotRunning? && !leader.reaped && !leader.exitObserved && !leader.notified
    }

    /** The exit of the child was reported, for the only time: settle its launch channel first. */
    method ServiceExit() returns (done: bool)
      requires Usable() && ExitDue(generation)
      modifies this`state, this`request, this`leader, this`launch, this`out, this`err, this`timers, this`halted
      modifies this`stopKind, this`terminationDeadline, this`exit, this`log, this`late, os`script
      ensures !halted ==> Valid()
      ensures if done then Completed() && !halted else Live() && log.child == old(log.child)
      ensures !done && !halted ==> state.Finishing? || late.wait || leader.exitObserved
      ensures (Strands(old(os.script)) && old(state).Starting? && !old(launch.resolved)
               && !old(leader.killAttempted)) ==> !done && !halted && Stranded()
      ensures old(state).Running? && old(launch.resolved) && !old(leader.killAttempted) ==>
                && WaitDecides(Resumed(Rest(old(os.script))), done)
                && (Exits(Resumed(Rest(old(os.script)))) && old(Drains(0)) && old(Drains(1)) ==> done)
    {
      leader := leader.(notified := true);
      ReadStatus();
      done := HoldOrReap();
    }

    /** What the exit of a running child with a settled launch comes to, by the answer to the wait. */
    twostate predicate ExitOutcome(s: seq<Answer>, ready: bool)
      reads this
    {
      && (First(s) == Value(0) ==> !halted && late.wait && log.child == old(log.child))
      && (Exits(s) && ready ==> old(log.child) in completed)
    }

    /** The exit of the child is reported, and its completion delivered if that was the last part of the run. */
    method TakeExit()
      requires Usable() && ExitDue(generation)
      modifies this, os`script
      ensures Core() && (!halted ==> Usable()) && !destroyed
      ensures (Strands(old(os.script)) && old(state).Starting? && !old(launch.resolved)
               && !old(leader.killAttempted)) ==> !halted && Stranded()
      ensures old(state).Running? && old(launch.resolved) && !old(leader.killAttempted) ==>
                ExitOutcome(Resumed(Rest(old(os.script))), old(Drains(0) && Drains(1)))
      ensures || halted || old(log.child) in completed
              || (Same(old(log.child), old(generation)) && (state.Finishing? || leader.exitObserved || late.wait))
    {
      var done := ServiceExit();
      if done {
        DeliverFinished();
      }
    }

    /** The child exited. The watch reports that once for a child, so this is the only wait an exit ever causes. */
    method ChildReady(g: nat)
      requires Usable()
      modifies this, os`script
      ensures Core() && (!halted ==> Usable()) && !destroyed
      ensures !old(ExitDue(g)) ==> unchanged(this)
      ensures (old(ExitDue(g)) && Strands(old(os.script)) && old(state).Starting? && !old(launch.resolved)
               && !old(leader.killAttempted)) ==> !halted && Stranded()
      ensures old(ExitDue(g)) && old(state).Running? && old(launch.resolved) && !old(leader.killAttempted) ==>
                ExitOutcome(Resumed(Rest(old(os.script))), old(Drains(0) && Drains(1)))
      ensures old(ExitDue(g)) ==>
                || halted || old(log.child) in completed
                || (Same(old(log.child), g) && (state.Finishing? || leader.exitObserved || late.wait))
    {
      if leader.anchor != Some(g) || g != generation || leader.notified {
        return;
      }
      TakeExit();
    }

    /** The launch deadline of the run passed. */
    method TimeoutExpired(g: nat)
      requires Usable()
      modifies this, os`script
      ensures if old(timers.timeout) == Some(g)
              then state.Stopping? && stopKind == Some(TimedOut) && timers.timeout.None?
                   && (leader.killAttempted || timers.termination == Some(g)) && log.child == old(log.child)
              else unchanged(this)
      ensures Usable()
      ensures old(Stuck()) ==> Stuck() && log == old(log)
      ensures old(late.wait) ==> late.wait && log.child == old(log.child)
    {
      if timers.timeout != Some(g) || g != generation {
        return;  // the loop fires live timers only
      }
      var delivered := RequestTermination();  // a failure is only reported
      BeginStopping(TimedOut);
    }

    /** Escalate to the whole group, and reap a leader that was held for it. */
    method Escalate() returns (done: bool)
      requires Usable() && timers.termination == Some(generation)
      modifies this`state, this`request, this`leader, this`launch, this`out, this`err, this`timers, this`halted
      modifies this`stopKind, this`terminationDeadline, this`exit, this`log, this`late, os`script
      ensures !halted ==> Valid()
      ensures if done then Completed() && !halted else Live() && log.child == old(log.child)
      ensures old(leader.exitObserved) && !old(leader.killAttempted) ==> done || halted || state.Finishing? || late.wait
      ensures old(leader.killAttempted) ==> !done && !halted && log == old(log) && late == old(late)
      ensures timers.termination.None?
      ensures !old(leader.killAttempted) && old(leader.exitObserved) ==> WaitDecides(Resumed(Rest(old(os.script))), done)
      ensures !done && !halted && !old(leader.exitObserved) ==> leader.killAttempted && state == old(state)
      ensures !done ==> leader.killAttempted
    {
      timers := timers.(termination := None);
      done := false;
      if !leader.killAttempted {
        AttemptGroupKill();
        if leader.exitObserved {
          done := ReapChild();
        }
      }
    }

    /** The termination grace ran out. */
    method TerminationGraceExpired(g: nat)
      requires Usable()
      modifies this, os`script
      ensures old(completed) <= completed
      ensures Core() && (!halted ==> Usable()) && !destroyed
      ensures old(timers.termination) != Some(g) ==> unchanged(this)
      ensures old(late.wait) ==> late.wait && log == old(log) && !halted
      ensures old(timers.termination) == Some(g) ==>
                Carried(g) && (Same(old(log.child), g) ==> leader.killAttempted)
      ensures old(leader.exitObserved) && old(timers.termination) == Some(g) && !old(leader.killAttempted) ==>
                || halted || old(log.child) in completed
                || (Same(old(log.child), g) && (state.Finishing? || late.wait))
    {
      if timers.termination != Some(g) || g != generation {
        return;
      }
      var done := Escalate();
      if done {
        DeliverFinished();
      }
    }

    /** The post-reap drain deadline passed. */
    method PostReapExpired(g: nat)
      requires Usable()
      modifies this, os`script
      ensures old(timers.postReap) != Some(g) ==> unchanged(this)
      ensures old(completed) <= completed
      ensures Usable()
      ensures old(Stuck()) ==> Stuck() && log == old(log)
      ensures old(late.wait) ==> late.wait && log == old(log)
      ensures old(timers.postReap) == Some(g) && old(launch.resolved) ==> !state.Finishing?
      ensures old(timers.postReap) == Some(g) ==>
                old(log.child) in completed || (Same(old(log.child), g) && late.status)
    {
      if timers.postReap != Some(g) || g != generation {
        return;
      }
      var done := PostReapDrainExpired();
      if done {
        DeliverFinished();
      }
    }

    /** Destruction: no signal is emitted, and whatever is owned is killed and reaped. */
    method Destroy()
      requires Usable()
      modifies this, os`script
      ensures destroyed && !halted && Core() && state.NotRunning?
      ensures old(state).NotRunning? ==> log == old(log)
      ensures !old(state).NotRunning? ==> log.history.Then? && log.history.last == Abandoned(old(log.child))
    {
      var active := !state.NotRunning?;
      Cleanup();
      if active {
        Log(Abandoned(log.child));
      }
      destroyed := true;
    }

    // ---------- Whole runs ----------

    /** The run did not end, or its completion was delivered, or a foreign reap was met. */
    twostate predicate Carried(g: nat)
      reads this
    {
      halted || old(log.child) in completed || Same(old(log.child), g)
    }

    /** What a call does that the interface promises to do something. */
    twostate predicate CallTook(input: Input)
      reads this
    {
      match input
      case StartCall(req) =>
        if old(state).NotRunning? && Starts(old(os.script), req)
        then !state.NotRunning? && request == Some(req) && log.child == old(log.child) + 1
        else state == old(state)
      case StopCall(reason) =>
        (old(state).Starting? || old(state).Running?) && !Refused(First(old(os.script))) ==>
          state.Stopping? && stopKind == Some(if reason == CancelledReason then Cancelled else Interrupted)
      case Destruction => destroyed && state.NotRunning?
      case _ => true
    }

    /** What a live event does; a stale one changes nothing. */
    twostate predicate EventTook(input: Input)
      reads this
    {
      match input
      case StatusEvent(g) =>
        if old(launch.anchor) == Some(g)
        then Carried(g) && (Same(old(log.child), g) && StatusSettles(old(os.script), old(launch.bytes)) ==> launch.resolved)
        else launch == old(launch)
      case OutputEvent(i, g, continuation) =>
        if old(if i == 0 then out.anchor else err.anchor) == Some(g)
        then Carried(g) && (Same(old(log.child), g) ==> if i == 0 then err == old(err) else out == old(out))
        else out == old(out) && err == old(err)
      case ExitEvent(g) =>
        if old(ExitDue(g))
        then || halted || old(log.child) in completed
             || (Same(old(log.child), g) && (state.Finishing? || leader.exitObserved || late.wait))
        else leader == old(leader)
      case TimeoutEvent(g) =>
        if old(timers.timeout) == Some(g) then state.Stopping? && stopKind == Some(TimedOut) else timers == old(timers)
      case GraceEvent(g) =>
        if old(timers.termination) == Some(g)
        then Carried(g) && (Same(old(log.child), g) ==> leader.killAttempted) else timers == old(timers)
      case PostReapEvent(g) =>
        if old(timers.postReap) == Some(g)
        then old(log.child) in completed || (Same(old(log.child), g) && late.status) else timers == old(timers)
      case _ => true
    }

    method HandleCall(input: Input)
      requires Usable() && (input.StartCall? || input.StopCall? || input.Destruction?)
      modifies this, os`script
      ensures Core() && (!halted && !destroyed ==> Usable()) && (destroyed ==> state.NotRunning?)
      ensures old(Stuck()) && !input.Destruction? ==> Stuck() && log == old(log) && !halted && !destroyed
      ensures old(late.wait) && !input.Destruction? ==> late.wait && log.child == old(log.child) && !halted && !destroyed
      ensures CallTook(input)
    {
      if input.StartCall? {
        var accepted := Start(input.request);
      } else if input.StopCall? {
        var r := Stop(input.reason);
      } else {
        Destroy();
      }
    }

    method HandleEvent(input: Input)
      requires Usable() && !input.StartCall? && !input.StopCall? && !input.Destruction?
      modifies this, os`script
      ensures Core() && (!halted ==> Usable()) && !destroyed
      ensures old(Stuck()) ==> Stuck() && log == old(log) && !halted
      ensures old(late.wait) ==> late.wait && log.child == old(log.child) && !halted
      ensures EventTook(input)
    {
      match input
      case StatusEvent(g) => StatusReady(g);
      case OutputEvent(i, g, continuation) => OutputReady(if i == 0 then 0 else 1, g, continuation);
      case ExitEvent(g) => ChildReady(g);
      case TimeoutEvent(g) => TimeoutExpired(g);
      case GraceEvent(g) => TerminationGraceExpired(g);
      case PostReapEvent(g) => PostReapExpired(g);
    }

    method Handle(input: Input)
      requires Usable()
      modifies this, os
      ensures Core() && (!halted && !destroyed ==> Usable()) && (destroyed ==> state.NotRunning?)
      ensures old(Stuck()) && !input.Destruction? ==> Stuck() && log == old(log) && !halted && !destroyed
      ensures old(late.wait) && !input.Destruction? ==> late.wait && log.child == old(log.child) && !halted && !destroyed
      ensures CallTook(input) && EventTook(input) && os.taken == old(os.taken) + [input]
    {
      if input.StartCall? || input.StopCall? || input.Destruction? {
        HandleCall(input);
      } else {
        HandleEvent(input);
      }
      os.taken := os.taken + [input];
    }

    /**
     Any sequence of calls and events, with any answers: the history is lawful
     and owes a completion exactly while a run is active, and an active run is
     attended exactly when neither guard was hit. A run whose child was not
     there to be waited for never completes, and neither does a stuck one,
     whatever happens short of destruction. Every input is taken, until the
     owner is destroyed or a foreign reap is met.
     */
    method Drive(inputs: seq<Input>)
      requires Usable()
      modifies this, os
      ensures Core()
      ensures Lawful(log.history) && Owed(log.history) == (if state.NotRunning? then 0 else 1)
      ensures !halted && !state.NotRunning? ==> (Attended() <==> late == NEVER_LATE)
      ensures old(Stuck()) && Destruction !in inputs ==> Stuck() && log == old(log)
      ensures old(late.wait) && Destruction !in inputs ==>
                late.wait && !state.NotRunning? && log.child == old(log.child) && !halted
      ensures (old(Stuck()) || old(late.wait)) && Destruction !in inputs ==> os.taken == old(os.taken) + inputs
      ensures exists n :: 0 <= n <= |inputs| && os.taken == old(os.taken) + inputs[..n]
                          && (n < |inputs| ==> halted || destroyed)
    {
      var i := 0;
      while i < |inputs| && !halted && !destroyed
        invariant 0 <= i <= |inputs|
        invariant Core() && (!halted && !destroyed ==> Usable()) && (destroyed ==> state.NotRunning?)
        invariant old(Stuck()) && Destruction !in inputs ==> Stuck() && log == old(log) && !halted && !destroyed
        invariant old(late.wait) && Destruction !in inputs ==>
                    late.wait && log.child == old(log.child) && !halted && !destroyed
        invariant os.taken == old(os.taken) + inputs[..i]
      {
        Handle(inputs[i]);
        assert inputs[..i + 1] == inputs[..i] + [inputs[i]];
        i := i + 1;
      }
    }
  }

  /** Everything that can happen to a process owner from outside. */
  datatype Input =
    | StartCall(request: Request)
    | StopCall(reason: StopReason)
    | StatusEvent(g: nat)
    | OutputEvent(index: nat, g: nat, continuation: bool)
    | ExitEvent(g: nat)
    | TimeoutEvent(g: nat)
    | GraceEvent(g: nat)
    | PostReapEvent(g: nat)
    | Destruction

  /**
     Every run of a process owner from its construction on is lawful. Exactly
     the child of the active run, if there is one, was accepted and is neither
     finished nor abandoned; and it is attended unless a guard was hit.
   */
  method EveryRun(script: seq<Answer>, inputs: seq<Input>) returns (p: Process)
    ensures Lawful(p.log.history)
    ensures Owed(p.log.history) == if p.state.NotRunning? then 0 else 1
    ensures forall c :: Open(p.log.history, c) <==> c == p.log.child && !p.state.NotRunning?
    ensures !p.halted && !p.state.NotRunning? ==> (p.Attended() <==> p.late == NEVER_LATE)
    ensures !p.halted && !p.destroyed ==> p.os.taken == inputs
  {
    var os := new Native(script);
    p := new Process(os);
    p.Drive(inputs);
    OwedByChild(p.log.history, p.log.child, !p.state.NotRunning?);
  }

  /**
     Completion is not guaranteed: every run whose launch channel is still open
     can be stranded for good. The child exits while the channel blocks and no
     deadline timer is to be had; the channel then ends, but the outputs stay
     open with nothing left to close them.
   */
  method EveryStartCanStrand(p: Process, inputs: seq<Input>)
    requires p.Usable() && p.state.Starting? && !p.launch.resolved && !p.leader.killAttempted && !p.leader.notified
    requires Destruction !in inputs
    modifies p, p.os
    ensures p.Stuck() && Owed(p.log.history) == 1 && p.os.taken == old(p.os.taken) + inputs
  {
    p.os.script := [Fail(EAGAIN), Value(0), Waited(0)];
    p.ChildReady(p.generation);
    p.os.script := [Value(0)];
    p.StatusReady(p.generation);
    p.Drive(inputs);
  }

  /**
     Nor is it once the launch channel is settled: every running child can be
     left unreaped for good. Its exit is reported, once, the group is killed,
     and the wait that follows answers that the child is not there yet.
   */
  method EveryExitCanStrand(p: Process, inputs: seq<Input>)
    requires p.Usable() && p.state.Running? && p.launch.resolved && !p.leader.killAttempted && !p.leader.notified
    requires Destruction !in inputs
    modifies p, p.os
    ensures p.late.wait && !p.state.NotRunning? && p.log.child == old(p.log.child) && Owed(p.log.history) == 1
    ensures p.os.taken == old(p.os.taken) + inputs
  {
    p.os.script := [Value(0), Value(0)];
    p.ChildReady(p.generation);
    p.Drive(inputs);
  }

  /**
     A deadline is kept: in every usable state a run that was not stopped and
     has one is stopped as timed out when its timeout fires.
   */
  method EveryDeadlineStops(p: Process)
    requires p.Usable() && (p.state.Starting? || p.state.Running?) && p.request.value.deadline.Some?
    modifies p, p.os
    ensures p.Usable() && p.state.Stopping? && p.stopKind == Some(TimedOut) && p.log.child == old(p.log.child)
    ensures p.leader.killAttempted || p.timers.termination == Some(p.generation)
  {
    p.TimeoutExpired(p.generation);
  }

  /**
     An attended run completes once the events that attend it arrive, whatever
     the system answers: its exit, the end of its grace and its last drain, in
     that order. Only the two guards, or a fatal wait, stand in the way.
   */
  method Conclude(p: Process)
    requires p.Usable() && !p.state.NotRunning? && p.Attended()
    modifies p, p.os
    ensures || p.halted || Finished(p.log.history, old(p.log.child))
            || (p.Same(old(p.log.child), old(p.generation)) && (p.late.wait || p.late.status))
  {
    var g := p.generation;
    ghost var c := p.log.child;
    if !p.state.Finishing? && !p.leader.exitObserved {
      p.ChildReady(g);
    }
    if !p.halted && p.generation == g && p.leader.exitObserved && !p.leader.killAttempted {
      p.TerminationGraceExpired(g);
    }
    if !p.halted && p.generation == g && p.state.Finishing? && p.timers.postReap.Some? {
      p.PostReapExpired(g);
    }
  }
}
