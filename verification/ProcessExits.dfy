/**
 The completion record of one process run, and the policy check that a later
 layer applies to it without knowing how the run was carried out.
 */
module ProcessExits {
  import opened Wrappers

  datatype ExitKind = Exited | Signaled | TimedOut | Cancelled | Interrupted | StartFailed

  /** The error attached to a failed start: one of the four child setup codes, or a code of some other origin. */
  datatype StartError = ChildSetupFailed | ChdirFailed | SecurityFailed | ExecFailed | Foreign(code: string)
  {
    function Code(): string {
      match this
      case ChildSetupFailed => "core.process.child_setup_failed"
      case ChdirFailed => "core.process.chdir_failed"
      case SecurityFailed => "core.process.security_failed"
      case ExecFailed => "core.process.exec_failed"
      case Foreign(code) => code
    }
  }

  datatype ProcessExit = ProcessExit(
    kind: ExitKind,
    exitCode: Option<int>,
    signalNumber: Option<int>,
    startError: Option<StartError>,
    stdoutLost: bool,
    stderrLost: bool)

  const EMPTY_EXIT := ProcessExit(StartFailed, None, None, None, false, false)

  const MAXIMUM_EXIT_CODE := 255

  predicate ValidExitCode(value: Option<int>) {
    value.Some? && 0 <= value.value <= MAXIMUM_EXIT_CODE
  }

  predicate ValidSignal(value: Option<int>) {
    value.Some? && value.value > 0
  }

  predicate ValidStartError(error: Option<StartError>) {
    error.Some? && "core.process." <= error.value.Code()
  }

  /** Exactly one of an exit code and a signal was observed. */
  predicate OneObserved(x: ProcessExit) {
    && x.exitCode.Some? != x.signalNumber.Some?
    && (x.exitCode.Some? ==> ValidExitCode(x.exitCode))
    && (x.signalNumber.Some? ==> ValidSignal(x.signalNumber))
  }

  /** True when the completion policy accepts the record. */
  predicate ValidateProcessExit(x: ProcessExit) {
    match x.kind
    case Exited => ValidExitCode(x.exitCode) && x.signalNumber.None? && x.startError.None?
    case Signaled => x.exitCode.None? && ValidSignal(x.signalNumber) && x.startError.None?
    case TimedOut => OneObserved(x) && x.startError.None?
    case Cancelled => OneObserved(x) && x.startError.None?
    case StartFailed => x.exitCode.None? && x.signalNumber.None? && ValidStartError(x.startError)
    case Interrupted => false
  }

  lemma SetupCodesAreValid(error: StartError)
    requires !error.Foreign?
    ensures ValidStartError(Some(error))
  {
  }

  /** WIFEXITED, WEXITSTATUS and WTERMSIG over the wait status word. */
  predicate ExitedNormally(status: nat) {
    status % 128 == 0
  }

  function ExitStatus(status: nat): int {
    (status / 256) % 256
  }

  function TermSignal(status: nat): int {
    status % 128
  }

  /** The record carries exactly what the wait status says. */
  predicate Observes(x: ProcessExit, status: nat) {
    if ExitedNormally(status)
    then x.exitCode == Some(ExitStatus(status)) && x.signalNumber.None?
    else x.exitCode.None? && x.signalNumber == Some(TermSignal(status))
  }

  lemma ObservedOnce(x: ProcessExit, status: nat)
    requires Observes(x, status)
    ensures OneObserved(x)
  {
  }
}
