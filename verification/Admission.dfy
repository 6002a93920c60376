/**
 Byte accounting for command-line jobs, done twice: when a payload is admitted
 and again when the process request is prepared. An admitted payload is never
 refused later for its size, its PATH, its names or its paths.
 */
module Admission {
  import opened Wrappers
  import opened Utf8

  const MAX_PATH_BYTES := 4096
  const MAX_ARGUMENTS := 1024
  const MAX_ENVIRONMENT := 256
  const MAX_PATH_ENTRIES := 256
  const MAX_CANDIDATE_BYTES := 0x4_0000
  const MAX_REQUEST_BYTES := 0x4_0000
  const ADDRESS_BYTES := 8

  const SLASH: Byte := 47
  const COLON: Byte := 58

  type Environment = map<Bytes, Bytes>

  predicate NoNul(s: Bytes) {
    forall i :: 0 <= i < |s| ==> s[i] != 0
  }

  predicate Letter(b: Byte) {
    65 <= b <= 90 || 97 <= b <= 122 || b == 95
  }

  predicate ValidName(s: Bytes) {
    s != [] && Letter(s[0]) && forall i :: 0 <= i < |s| ==> Letter(s[i]) || 48 <= s[i] <= 57
  }

  /** An absolute path, or a bare name without any slash. */
  predicate ValidCommand(s: Bytes) {
    0 < |s| <= MAX_PATH_BYTES && NoNul(s) && (s[0] == SLASH || SLASH !in s)
  }

  predicate ValidDirectory(s: Bytes) {
    0 < |s| <= MAX_PATH_BYTES && s[0] == SLASH && NoNul(s)
  }

  /** Letters are those of the alphabet and the underscore. */
  lemma LettersExactly(b: Byte)
    ensures Letter(b) <==> var c := b as char; 'A' <= c <= 'Z' || 'a' <= c <= 'z' || c == '_'
  {
  }

  /** A name goes on with letters and digits; putting a digit first spoils it. */
  lemma {:induction false} NamesGrow(s: Bytes, b: Byte)
    ensures s != [] ==> (ValidName(s + [b]) <==> ValidName(s) && (Letter(b) || '0' as int <= b <= '9' as int))
    ensures ValidName([b]) <==> Letter(b)
    ensures !ValidName([])
  {
    var t := s + [b];
    assert t[|s|] == b;
    assert forall i :: 0 <= i < |s| ==> t[i] == s[i];
    assert [b][0] == b;
  }

  /** A command is an absolute path or a name without any slash, and a directory an absolute path, of 1 to 4096 bytes. */
  lemma PathsExactly(s: Bytes)
    ensures SLASH == '/' as int && COLON == ':' as int
    ensures [SLASH] <= s ==> ValidCommand(s) == ValidDirectory(s) == (|s| <= 4096 && 0 !in s)
    ensures SLASH !in s ==> !ValidDirectory(s) && ValidCommand(s) == (s != [] && |s| <= 4096 && 0 !in s)
    ensures SLASH in s && !([SLASH] <= s) ==> !ValidCommand(s) && !ValidDirectory(s)
  {
  }

  lemma VariableNames()
    ensures PATH == Octets("PATH") && JOB_ID == Octets("JOBU_JOB_ID")
    ensures RUN_ID == Octets("JOBU_RUN_ID") && ATTEMPT == Octets("JOBU_ATTEMPT")
  {
  }

  // ---------- Bounded addition ----------

  /** The admission side: fails exactly when the total would pass the limit. */
  method AddBytes(total: nat, amount: nat, limit: nat) returns (ok: bool, sum: nat)
    ensures ok <==> total + amount <= limit
    ensures sum == if ok then total + amount else total
  {
    if total > limit || amount > limit - total {
      return false, total;
    }
    return true, total + amount;
  }

  /** The preparation side relies on the total being within the limit already: otherwise the subtraction would wrap. */
  method AddWithin(total: nat, amount: nat, limit: nat) returns (ok: bool, sum: nat)
    requires total <= limit
    ensures ok <==> total + amount <= limit
    ensures sum == if ok then total + amount else total
  {
    if amount > limit - total {
      return false, total;
    }
    return true, total + amount;
  }

  // ---------- What a request costs ----------

  /** A string, its terminator and the pointer to it. */
  function StringBytes(size: nat): nat {
    size + 1 + ADDRESS_BYTES
  }

  function ArgumentBytes(arguments: seq<Bytes>): nat {
    if arguments == [] then 0
    else ArgumentBytes(arguments[..|arguments| - 1]) + StringBytes(|arguments[|arguments| - 1]|)
  }

  function EntryBytes(name: Bytes, value: Bytes): nat {
    |name| + 1 + StringBytes(|value|)
  }

  ghost function EnvironmentBytes(env: Environment): nat
    decreases |env|
  {
    if env == map[] then 0
    else
      var name :| name in env;
      EntryBytes(name, env[name]) + EnvironmentBytes(env - {name})
  }

  /** The total does not depend on the order in which entries are counted. */
  lemma {:induction false} AnyEntryFirst(env: Environment, name: Bytes)
    requires name in env
    ensures EnvironmentBytes(env) == EntryBytes(name, env[name]) + EnvironmentBytes(env - {name})
    decreases |env|
  {
    var first :| first in env && EnvironmentBytes(env) == EntryBytes(first, env[first]) + EnvironmentBytes(env - {first});
    if first != name {
      AnyEntryFirst(env - {first}, name);
      AnyEntryFirst(env - {name}, first);
      assert env - {first} - {name} == env - {name} - {first};
    }
  }

  lemma EntryAdded(env: Environment, name: Bytes, value: Bytes)
    requires name !in env
    ensures EnvironmentBytes(env[name := value]) == EnvironmentBytes(env) + EntryBytes(name, value)
  {
    AnyEntryFirst(env[name := value], name);
    assert env[name := value] - {name} == env;
  }

  ghost function RequestBytes(command: Bytes, arguments: seq<Bytes>, env: Environment): nat {
    2 * ADDRESS_BYTES + StringBytes(|command|) + ArgumentBytes(arguments) + EnvironmentBytes(env)
  }

  // ---------- PATH ----------

  const PATH: Bytes := [80, 65, 84, 72]

  /** Where the next colon is, or the length. */
  function NextColon(s: Bytes, from: nat): (c: nat)
    requires from <= |s|
    ensures from <= c <= |s|
    decreases |s| - from
  {
    if from == |s| || s[from] == COLON then from else NextColon(s, from + 1)
  }

  lemma {:induction false} NextColonIsNext(s: Bytes, from: nat)
    requires from <= |s|
    ensures NextColon(s, from) < |s| ==> s[NextColon(s, from)] == COLON
    ensures forall i :: from <= i < NextColon(s, from) ==> s[i] != COLON
    decreases |s| - from
  {
    if from < |s| && s[from] != COLON {
      NextColonIsNext(s, from + 1);
    }
  }

  datatype Directories = NoMore | Directory(first: Bytes, rest: Directories)

  /** The directories of the part of a PATH that begins at `from`. */
  function Split(path: Bytes, from: nat): Directories
    requires from <= |path|
    decreases |path| - from
  {
    var colon := NextColon(path, from);
    Directory(path[from..colon], if colon < |path| then Split(path, colon + 1) else NoMore)
  }

  predicate ValidEntry(directory: Bytes) {
    directory != [] && directory[0] == SLASH
  }

  /** The executable to try in a directory. */
  function Candidate(directory: Bytes, command: Bytes): Bytes {
    if directory != [] && directory[|directory| - 1] == SLASH then directory + command else directory + [SLASH] + command
  }

  /** The length of a candidate with its terminator. */
  function CandidateSize(directory: Bytes, command: Bytes): nat {
    |directory| + (if directory != [] && directory[|directory| - 1] == SLASH then 0 else 1) + |command| + 1
  }

  lemma CandidateIsSized(directory: Bytes, command: Bytes)
    ensures CandidateSize(directory, command) == |Candidate(directory, command)| + 1
  {
  }

  function Count(ds: Directories): nat {
    if ds.NoMore? then 0 else 1 + Count(ds.rest)
  }

  predicate ValidEntries(ds: Directories) {
    ds.Directory? ==> ValidEntry(ds.first) && ValidEntries(ds.rest)
  }

  function CandidateBytes(ds: Directories, command: Bytes): nat {
    if ds.NoMore? then 0 else CandidateSize(ds.first, command) + CandidateBytes(ds.rest, command)
  }

  function Candidates(ds: Directories, command: Bytes): seq<Bytes> {
    if ds.NoMore? then [] else [Candidate(ds.first, command)] + Candidates(ds.rest, command)
  }

  /** A bare command can be searched for along this PATH. */
  predicate PathFits(path: Bytes, command: Bytes) {
    var ds := Split(path, 0);
    && Count(ds) <= MAX_PATH_ENTRIES && ValidEntries(ds)
    && CandidateBytes(ds, command) <= MAX_CANDIDATE_BYTES
  }

  /** The rest of a walk along PATH that has already visited some entries and counted some bytes. */
  predicate WalkFits(path: Bytes, from: nat, command: Bytes, entries: nat, bytes: nat)
    requires from <= |path|
    decreases |path| - from
  {
    var colon := NextColon(path, from);
    var directory := path[from..colon];
    && ValidEntry(directory) && entries < MAX_PATH_ENTRIES
    && bytes + CandidateSize(directory, command) <= MAX_CANDIDATE_BYTES
    && (colon < |path| ==>
          WalkFits(path, colon + 1, command, entries + 1, bytes + CandidateSize(directory, command)))
  }

  /** The walk succeeds exactly when all directories together fit. */
  lemma {:induction false} WalkIsExact(path: Bytes, from: nat, command: Bytes, entries: nat, bytes: nat)
    requires from <= |path|
    ensures WalkFits(path, from, command, entries, bytes) <==>
              && entries + Count(Split(path, from)) <= MAX_PATH_ENTRIES
              && ValidEntries(Split(path, from))
              && bytes + CandidateBytes(Split(path, from), command) <= MAX_CANDIDATE_BYTES
    decreases |path| - from
  {
    var colon := NextColon(path, from);
    if colon < |path| {
      WalkIsExact(path, colon + 1, command, entries + 1, bytes + CandidateSize(path[from..colon], command));
    } else {
      var last := NoMore;
      assert Split(path, from) == Directory(path[from..colon], last);
      assert Count(last) == 0 && ValidEntries(last) && CandidateBytes(last, command) == 0;
    }
  }

  /** Walks PATH as the admission check does. */
  method CheckPath(path: Bytes, command: Bytes) returns (ok: bool)
    ensures ok <==> PathFits(path, command)
  {
    WalkIsExact(path, 0, command, 0, 0);
    ok := CheckEntries(path, command);
  }

  method CheckEntries(path: Bytes, command: Bytes) returns (ok: bool)
    ensures ok <==> WalkFits(path, 0, command, 0, 0)
  {
    ghost var fits := WalkFits(path, 0, command, 0, 0);
    var from, entries, bytes: nat := 0, 0, 0;
    while true
      invariant from <= |path| && entries <= MAX_PATH_ENTRIES && bytes <= MAX_CANDIDATE_BYTES
      invariant WalkFits(path, from, command, entries, bytes) <==> fits
      decreases |path| - from
    {
      var colon := NextColon(path, from);
      var directory := path[from..colon];
      if directory == [] || directory[0] != SLASH || entries == MAX_PATH_ENTRIES {
        return false;
      }
      var added: bool;
      added, bytes := AddCandidate(bytes, directory, command);
      if !added {
        return false;
      }
      entries := entries + 1;
      if colon == |path| {
        return true;
      }
      from := colon + 1;
    }
  }

  method AddCandidate(bytes: nat, directory: Bytes, command: Bytes) returns (ok: bool, sum: nat)
    ensures ok <==> bytes + CandidateSize(directory, command) <= MAX_CANDIDATE_BYTES
    ensures ok ==> sum == bytes + CandidateSize(directory, command)
  {
    ok, sum := AddBytes(bytes, |directory|, MAX_CANDIDATE_BYTES);
    if ok {
      ok, sum := AddBytes(sum, if directory != [] && directory[|directory| - 1] == SLASH then 0 else 1, MAX_CANDIDATE_BYTES);
    }
    if ok {
      ok, sum := AddBytes(sum, |command|, MAX_CANDIDATE_BYTES);
    }
    if ok {
      ok, sum := AddBytes(sum, 1, MAX_CANDIDATE_BYTES);
    }
  }

  // ---------- Admission ----------

  /** A decoded payload without templates; an environment entry without a value removes the variable. */
  datatype Payload = Payload(command: Bytes, arguments: seq<Bytes>, directory: Bytes, environment: map<Bytes, Option<Bytes>>)

  datatype Issue =
    | Accepted | MissingCommand | InvalidCommand | InvalidArguments | InvalidDirectory | InvalidEnvironment
    | InvalidPath | RequestTooLarge

  const JOB_ID: Bytes := [74, 79, 66, 85, 95, 74, 79, 66, 95, 73, 68]     // "JOBU_JOB_ID"
  const RUN_ID: Bytes := [74, 79, 66, 85, 95, 82, 85, 78, 95, 73, 68]     // "JOBU_RUN_ID"
  const ATTEMPT: Bytes := [74, 79, 66, 85, 95, 65, 84, 84, 69, 77, 80, 84]  // "JOBU_ATTEMPT"
  const UUID_BYTES := 36
  const ATTEMPT_BYTES := 20

  predicate Reserved(name: Bytes) {
    name == JOB_ID || name == RUN_ID || name == ATTEMPT
  }

  /** The variables a payload sets. */
  function Assigned(env: map<Bytes, Option<Bytes>>): Environment {
    map name | name in env && env[name].Some? :: env[name].value
  }

  predicate ValidVariable(name: Bytes, value: Option<Bytes>) {
    ValidName(name) && !Reserved(name) && (value.Some? ==> NoNul(value.value))
  }

  ghost predicate ValidVariables(env: map<Bytes, Option<Bytes>>) {
    |env| <= MAX_ENVIRONMENT && forall name :: name in env ==> ValidVariable(name, env[name])
  }

  predicate ValidArguments(arguments: seq<Bytes>) {
    |arguments| <= MAX_ARGUMENTS && forall i :: 0 <= i < |arguments| ==> NoNul(arguments[i])
  }

  /** The room kept for the three variables the daemon adds. */
  function ReservedBytes(): nat {
    2 * (11 + 1 + StringBytes(UUID_BYTES)) + (12 + 1 + StringBytes(ATTEMPT_BYTES))
  }

  predicate SearchFits(command: Bytes, env: Environment)
    requires command != []
  {
    command[0] == SLASH || (PATH in env && PathFits(env[PATH], command))
  }

  ghost predicate Admissible(p: Payload) {
    && ValidCommand(p.command) && ValidArguments(p.arguments) && ValidDirectory(p.directory)
    && ValidVariables(p.environment) && SearchFits(p.command, Assigned(p.environment))
    && RequestBytes(p.command, p.arguments, Assigned(p.environment)) + ReservedBytes() <= MAX_REQUEST_BYTES
  }

  method AddString(total: nat, size: nat) returns (ok: bool, sum: nat)
    ensures ok <==> total + StringBytes(size) <= MAX_REQUEST_BYTES
    ensures ok ==> sum == total + StringBytes(size)
  {
    ok, sum := AddBytes(total, size, MAX_REQUEST_BYTES);
    if ok {
      ok, sum := AddBytes(sum, 1 + ADDRESS_BYTES, MAX_REQUEST_BYTES);
    }
  }

  method AddVariable(total: nat, nameSize: nat, valueSize: nat) returns (ok: bool, sum: nat)
    ensures ok <==> total + nameSize + 1 + StringBytes(valueSize) <= MAX_REQUEST_BYTES
    ensures ok ==> sum == total + nameSize + 1 + StringBytes(valueSize)
  {
    ok, sum := AddBytes(total, nameSize, MAX_REQUEST_BYTES);
    if ok {
      ok, sum := AddBytes(sum, 1, MAX_REQUEST_BYTES);
    }
    if ok {
      ok, sum := AddString(sum, valueSize);
    }
  }

  lemma {:induction false} ArgumentsGrow(arguments: seq<Bytes>, i: nat)
    requires i <= |arguments|
    ensures ArgumentBytes(arguments[..i]) <= ArgumentBytes(arguments)
    decreases |arguments| - i
  {
    if i == |arguments| {
      assert arguments[..i] == arguments;
    } else {
      ArgumentsGrow(arguments, i + 1);
      assert arguments[..i + 1][..i] == arguments[..i];
    }
  }

  method CountArguments(start: nat, arguments: seq<Bytes>) returns (ok: bool, sum: nat)
    requires start <= MAX_REQUEST_BYTES
    ensures ok <==> start + ArgumentBytes(arguments) <= MAX_REQUEST_BYTES
    ensures ok ==> sum == start + ArgumentBytes(arguments)
  {
    sum := start;
    for i := 0 to |arguments|
      invariant sum == start + ArgumentBytes(arguments[..i]) <= MAX_REQUEST_BYTES
    {
      ArgumentsGrow(arguments, i + 1);
      assert arguments[..i + 1][..i] == arguments[..i];
      ok, sum := AddString(sum, |arguments[i]|);
      if !ok {
        return;
      }
    }
    assert arguments[..|arguments|] == arguments;
    ok := true;
  }

  function Without(env: Environment, left: set<Bytes>): Environment {
    map name | name in env && name !in left :: env[name]
  }

  lemma CountedOne(env: Environment, left: set<Bytes>, name: Bytes)
    requires name in left && name in env
    ensures EnvironmentBytes(Without(env, left - {name}))
         == EnvironmentBytes(Without(env, left)) + EntryBytes(name, env[name])
  {
    assert Without(env, left - {name}) == Without(env, left)[name := env[name]];
    EntryAdded(Without(env, left), name, env[name]);
  }

  lemma {:induction false} EnvironmentGrows(env: Environment, left: set<Bytes>)
    ensures EnvironmentBytes(Without(env, left)) <= EnvironmentBytes(env)
    decreases |left|
  {
    if left == {} {
      assert Without(env, left) == env;
    } else {
      var name :| name in left;
      EnvironmentGrows(env, left - {name});
      if name in env {
        CountedOne(env, left, name);
      } else {
        assert Without(env, left - {name}) == Without(env, left);
      }
    }
  }

  /** Counts the variables in whatever order they come. */
  method CountVariables(start: nat, env: Environment) returns (ok: bool, sum: nat)
    requires start <= MAX_REQUEST_BYTES
    ensures ok <==> start + EnvironmentBytes(env) <= MAX_REQUEST_BYTES
    ensures ok ==> sum == start + EnvironmentBytes(env)
  {
    sum := start;
    var left := env.Keys;
    assert Without(env, left) == map[];
    while left != {}
      invariant left <= env.Keys
      invariant sum == start + EnvironmentBytes(Without(env, left)) <= MAX_REQUEST_BYTES
      decreases |left|
    {
      var name :| name in left;
      CountedOne(env, left, name);
      EnvironmentGrows(env, left - {name});
      ok, sum := AddVariable(sum, |name|, |env[name]|);
      if !ok {
        return;
      }
      left := left - {name};
    }
    assert Without(env, left) == env;
    ok := true;
  }

  /** prepared_request_fits() */
  method RequestFits(p: Payload) returns (ok: bool)
    ensures ok <==> RequestBytes(p.command, p.arguments, Assigned(p.environment)) + ReservedBytes() <= MAX_REQUEST_BYTES
  {
    var bytes := 2 * ADDRESS_BYTES;
    ok, bytes := AddString(bytes, |p.command|);
    if ok {
      ok, bytes := CountArguments(bytes, p.arguments);
    }
    if ok {
      ok, bytes := CountVariables(bytes, Assigned(p.environment));
    }
    if ok {
      ok, bytes := AddVariable(bytes, |JOB_ID|, UUID_BYTES);
    }
    if ok {
      ok, bytes := AddVariable(bytes, |RUN_ID|, UUID_BYTES);
    }
    if ok {
      ok, bytes := AddVariable(bytes, |ATTEMPT|, ATTEMPT_BYTES);
    }
  }

  method CheckVariables(env: map<Bytes, Option<Bytes>>) returns (ok: bool)
    ensures ok <==> ValidVariables(env)
  {
    if |env| > MAX_ENVIRONMENT {
      return false;
    }
    var left := env.Keys;
    while left != {}
      invariant left <= env.Keys
      invariant forall name :: name in env && name !in left ==> ValidVariable(name, env[name])
      decreases |left|
    {
      var name :| name in left;
      if !ValidVariable(name, env[name]) {
        return false;
      }
      left := left - {name};
    }
    return true;
  }

  /** parse_cli_payload() on decoded members. */
  method Admit(p: Payload) returns (issue: Issue)
    ensures issue == Accepted <==> Admissible(p)
    ensures issue == MissingCommand <==> p.command == []
    ensures issue == InvalidCommand <==> p.command != [] && !ValidCommand(p.command)
    ensures issue == InvalidArguments <==> ValidCommand(p.command) && !ValidArguments(p.arguments)
    ensures issue == InvalidPath ==> p.command != [] && ValidVariables(p.environment) && !SearchFits(p.command, Assigned(p.environment))
    ensures issue == RequestTooLarge ==> p.command != [] && SearchFits(p.command, Assigned(p.environment))
  {
    if p.command == [] {
      return MissingCommand;
    }
    if !ValidCommand(p.command) {
      return InvalidCommand;
    }
    if !ValidArguments(p.arguments) {
      return InvalidArguments;
    }
    if !ValidDirectory(p.directory) {
      return InvalidDirectory;
    }
    var variables := CheckVariables(p.environment);
    if !variables {
      return InvalidEnvironment;
    }
    if p.command[0] != SLASH {
      if PATH !in p.environment || p.environment[PATH].None? {
        return InvalidPath;
      }
      var path := CheckPath(p.environment[PATH].value, p.command);
      if !path {
        return InvalidPath;
      }
    }
    var fits := RequestFits(p);
    return if fits then Accepted else RequestTooLarge;
  }

  // ---------- Preparation ----------

  /** A time point or a duration of the monotonic clock, in nanoseconds. */
  type Nanoseconds = t: int | -0x8000_0000_0000_0000 <= t <= CLOCK_MAX

  const CLOCK_MAX := 0x7fff_ffff_ffff_ffff
  const MAX_GRACE := 5 * 60 * 1_000_000_000

  datatype StartInfo = StartInfo(executable: Bytes, arguments: seq<Bytes>, directory: Bytes, environment: Environment,
                                 grace: Nanoseconds, timeout: Option<Nanoseconds>)

  datatype Reason =
    | ExecutableInvalid | DirectoryInvalid | TooManyArguments | GraceOutOfRange | TimeoutNotPositive | DeadlineOutOfRange
    | AggregateTooLarge | ArgumentHasNul | VariableNameInvalid | VariableHasNul
    | RuntimeLimitUnavailable | RuntimeLimit | PathMissing | PathEntryInvalid | PathTooManyEntries | CandidatesTooLarge

  const SAFETY_MARGIN := 2048

  datatype Prepared = Prepared(candidates: seq<Bytes>, bytes: nat, deadline: Option<Nanoseconds>)

  /** Everything about a request that its own text decides. */
  ghost predicate Preparable(info: StartInfo) {
    && ValidCommand(info.executable) && ValidArguments(info.arguments) && ValidDirectory(info.directory)
    && (forall name :: name in info.environment ==> ValidName(name) && NoNul(info.environment[name]))
    && SearchFits(info.executable, info.environment)
    && RequestBytes(info.executable, info.arguments, info.environment) <= MAX_REQUEST_BYTES
  }

  /** The reasons that do not depend on the text of the request. */
  predicate Circumstantial(r: Reason) {
    || r == GraceOutOfRange || r == TimeoutNotPositive || r == DeadlineOutOfRange
    || r == RuntimeLimitUnavailable || r == RuntimeLimit
  }

  /** The grace and the timeout are in range, and the deadline is one the clock can show. */
  predicate Timely(info: StartInfo, launch: Nanoseconds) {
    && 0 <= info.grace <= MAX_GRACE
    && (info.timeout.Some? ==> info.timeout.value > 0 && launch + info.timeout.value <= CLOCK_MAX)
  }

  /** The runtime's own limit on arguments and environment. */
  predicate WithinRuntime(bytes: int, argMax: int) {
    argMax > SAFETY_MARGIN && bytes <= argMax - SAFETY_MARGIN
  }

  /** checked_process_deadline(): subtracts before it adds, so that neither step leaves the clock's range. */
  method CheckedDeadline(launch: Nanoseconds, timeout: Nanoseconds) returns (r: Result<Nanoseconds, Reason>)
    ensures r.Ok? <==> timeout > 0 && launch + timeout <= CLOCK_MAX
    ensures r.Ok? ==> r.value == launch + timeout
    ensures r == Err(TimeoutNotPositive) <==> timeout <= 0
    ensures r == Err(DeadlineOutOfRange) <==> timeout > 0 && launch + timeout > CLOCK_MAX
  {
    if timeout <= 0 {
      return Err(TimeoutNotPositive);
    }
    var latest: Nanoseconds := CLOCK_MAX - timeout;
    if launch > latest {
      return Err(DeadlineOutOfRange);
    }
    return Ok(launch + timeout);
  }

  /** The grace and the timeout of a request. */
  method CheckTimes(info: StartInfo, launch: Nanoseconds) returns (r: Result<Option<Nanoseconds>, Reason>)
    ensures r.Ok? <==> Timely(info, launch)
    ensures r.Ok? ==> r.value == if info.timeout.Some? then Some(launch + info.timeout.value) else None
    ensures r.Err? ==>
              if !(0 <= info.grace <= MAX_GRACE) then r.error == GraceOutOfRange
              else info.timeout.Some?
                   && r.error == if info.timeout.value <= 0 then TimeoutNotPositive else DeadlineOutOfRange
  {
    if info.grace < 0 || info.grace > MAX_GRACE {
      return Err(GraceOutOfRange);
    }
    if info.timeout.None? {
      return Ok(None);
    }
    var deadline := CheckedDeadline(launch, info.timeout.value);
    return if deadline.Ok? then Ok(Some(deadline.value)) else Err(deadline.error);
  }

  method PrepareString(total: nat, size: nat) returns (ok: bool, sum: nat)
    requires total <= MAX_REQUEST_BYTES
    ensures ok <==> total + StringBytes(size) <= MAX_REQUEST_BYTES
    ensures ok ==> sum == total + StringBytes(size)
  {
    ok, sum := AddWithin(total, size, MAX_REQUEST_BYTES);
    if ok {
      ok, sum := AddWithin(sum, 1 + ADDRESS_BYTES, MAX_REQUEST_BYTES);
    }
  }

  method PrepareVariable(total: nat, nameSize: nat, valueSize: nat) returns (ok: bool, sum: nat)
    requires total <= MAX_REQUEST_BYTES
    ensures ok <==> total + nameSize + 1 + StringBytes(valueSize) <= MAX_REQUEST_BYTES
    ensures ok ==> sum == total + nameSize + 1 + StringBytes(valueSize)
  {
    ok, sum := AddWithin(total, nameSize, MAX_REQUEST_BYTES);
    if ok {
      ok, sum := AddWithin(sum, 1, MAX_REQUEST_BYTES);
    }
    if ok {
      ok, sum := PrepareString(sum, valueSize);
    }
  }

  method PrepareArguments(start: nat, arguments: seq<Bytes>) returns (error: Option<Reason>, sum: nat)
    requires start <= MAX_REQUEST_BYTES
    ensures error.None? <==>
              (forall i :: 0 <= i < |arguments| ==> NoNul(arguments[i]))
              && start + ArgumentBytes(arguments) <= MAX_REQUEST_BYTES
    ensures error.None? ==> sum == start + ArgumentBytes(arguments)
    ensures error.Some? ==> !Circumstantial(error.value)
  {
    sum := start;
    for i := 0 to |arguments|
      invariant forall j :: 0 <= j < i ==> NoNul(arguments[j])
      invariant sum == start + ArgumentBytes(arguments[..i]) <= MAX_REQUEST_BYTES
    {
      if !NoNul(arguments[i]) {
        return Some(ArgumentHasNul), sum;
      }
      ArgumentsGrow(arguments, i + 1);
      assert arguments[..i + 1][..i] == arguments[..i];
      var ok: bool;
      ok, sum := PrepareString(sum, |arguments[i]|);
      if !ok {
        return Some(AggregateTooLarge), sum;
      }
    }
    assert arguments[..|arguments|] == arguments;
    error := None;
  }

  method PrepareVariables(start: nat, env: Environment) returns (error: Option<Reason>, sum: nat)
    requires start <= MAX_REQUEST_BYTES
    ensures error.None? <==>
              (forall name :: name in env ==> ValidName(name) && NoNul(env[name]))
              && start + EnvironmentBytes(env) <= MAX_REQUEST_BYTES
    ensures error.None? ==> sum == start + EnvironmentBytes(env)
    ensures error.Some? ==> !Circumstantial(error.value)
  {
    sum := start;
    var left := env.Keys;
    assert Without(env, left) == map[];
    while left != {}
      invariant left <= env.Keys
      invariant forall name :: name in env && name !in left ==> ValidName(name) && NoNul(env[name])
      invariant sum == start + EnvironmentBytes(Without(env, left)) <= MAX_REQUEST_BYTES
      decreases |left|
    {
      var name :| name in left;
      if !ValidName(name) {
        return Some(VariableNameInvalid), sum;
      }
      if !NoNul(env[name]) {
        return Some(VariableHasNul), sum;
      }
      CountedOne(env, left, name);
      EnvironmentGrows(env, left - {name});
      var ok: bool;
      ok, sum := PrepareVariable(sum, |name|, |env[name]|);
      if !ok {
        return Some(AggregateTooLarge), sum;
      }
      left := left - {name};
    }
    assert Without(env, left) == env;
    error := None;
  }

  lemma Regroup(a: seq<Bytes>, b: Bytes, c: seq<Bytes>)
    ensures a + ([b] + c) == a + [b] + c && a + [b] + [] == a + [b]
  {
  }

  /** One more candidate, by the addition that relies on the total being within the limit. */
  method PrepareCandidate(bytes: nat, directory: Bytes, command: Bytes) returns (ok: bool, sum: nat)
    requires bytes <= MAX_CANDIDATE_BYTES
    ensures ok <==> bytes + CandidateSize(directory, command) <= MAX_CANDIDATE_BYTES
    ensures ok ==> sum == bytes + CandidateSize(directory, command)
  {
    var separator := if directory != [] && directory[|directory| - 1] == SLASH then 0 else 1;
    ok, sum := AddWithin(bytes, |directory|, MAX_CANDIDATE_BYTES);
    if ok {
      ok, sum := AddWithin(sum, separator, MAX_CANDIDATE_BYTES);
    }
    if ok {
      ok, sum := AddWithin(sum, |command|, MAX_CANDIDATE_BYTES);
    }
    if ok {
      ok, sum := AddWithin(sum, 1, MAX_CANDIDATE_BYTES);
    }
  }

  /** The checks of prepare_candidates() on each directory in turn. */
  method WalkPath(path: Bytes, command: Bytes) returns (error: Option<Reason>)
    ensures error.None? <==> PathFits(path, command)
    ensures error.Some? ==> !Circumstantial(error.value)
  {
    WalkIsExact(path, 0, command, 0, 0);
    error := WalkEntries(path, command);
  }

  method WalkEntries(path: Bytes, command: Bytes) returns (error: Option<Reason>)
    ensures error.None? <==> WalkFits(path, 0, command, 0, 0)
    ensures error.Some? ==> !Circumstantial(error.value)
  {
    ghost var fits := WalkFits(path, 0, command, 0, 0);
    var from, entries, bytes: nat := 0, 0, 0;
    while true
      invariant from <= |path| && entries <= MAX_PATH_ENTRIES && bytes <= MAX_CANDIDATE_BYTES
      invariant WalkFits(path, from, command, entries, bytes) <==> fits
      decreases |path| - from
    {
      var colon := NextColon(path, from);
      var directory := path[from..colon];
      if directory == [] || directory[0] != SLASH {
        return Some(PathEntryInvalid);
      }
      if entries == MAX_PATH_ENTRIES {
        return Some(PathTooManyEntries);
      }
      var added: bool;
      added, bytes := PrepareCandidate(bytes, directory, command);
      if !added {
        return Some(CandidatesTooLarge);
      }
      entries := entries + 1;
      if colon == |path| {
        return None;
      }
      from := colon + 1;
    }
  }

  /** The executables to try, in PATH order. */
  method ListCandidates(path: Bytes, command: Bytes) returns (candidates: seq<Bytes>)
    ensures candidates == Candidates(Split(path, 0), command)
  {
    var left := Split(path, 0);
    candidates := [];
    while left.Directory?
      invariant candidates + Candidates(left, command) == Candidates(Split(path, 0), command)
      decreases left
    {
      Regroup(candidates, Candidate(left.first, command), Candidates(left.rest, command));
      candidates := candidates + [Candidate(left.first, command)];
      left := left.rest;
    }
  }

  method CountRequest(info: StartInfo) returns (error: Option<Reason>, bytes: nat)
    ensures error.None? <==>
              && (forall i :: 0 <= i < |info.arguments| ==> NoNul(info.arguments[i]))
              && (forall name :: name in info.environment ==> ValidName(name) && NoNul(info.environment[name]))
              && RequestBytes(info.executable, info.arguments, info.environment) <= MAX_REQUEST_BYTES
    ensures error.None? ==> bytes == RequestBytes(info.executable, info.arguments, info.environment)
    ensures error.Some? ==> !Circumstantial(error.value)
  {
    bytes := 2 * ADDRESS_BYTES;
    var ok: bool;
    ok, bytes := PrepareString(bytes, |info.executable|);
    if !ok {
      return Some(AggregateTooLarge), bytes;
    }
    error, bytes := PrepareArguments(bytes, info.arguments);
    if error.None? {
      error, bytes := PrepareVariables(bytes, info.environment);
    }
  }

  /** The candidates of an executable: itself when it is a path, and otherwise one for each directory of PATH. */
  function Expected(info: StartInfo): seq<Bytes>
    requires info.executable != [] && (info.executable[0] != SLASH ==> PATH in info.environment)
  {
    if info.executable[0] == SLASH then [info.executable]
    else Candidates(Split(info.environment[PATH], 0), info.executable)
  }

  method PrepareCandidates(info: StartInfo) returns (r: Result<seq<Bytes>, Reason>)
    requires info.executable != []
    ensures r.Ok? <==> SearchFits(info.executable, info.environment)
    ensures r.Ok? ==> r.value == Expected(info)
    ensures r.Err? ==> !Circumstantial(r.error)
  {
    if info.executable[0] == SLASH {
      return Ok([info.executable]);
    }
    if PATH !in info.environment {
      return Err(PathMissing);
    }
    var error := WalkPath(info.environment[PATH], info.executable);
    if error.Some? {
      return Err(error.value);
    }
    var candidates := ListCandidates(info.environment[PATH], info.executable);
    return Ok(candidates);
  }

  /**
   prepare_process_request(): succeeds exactly for a text that fits, times that
   are in range and a size within the runtime's limit; and a text that fits is
   refused only for its circumstances.
   */
  method Prepare(info: StartInfo, launch: Nanoseconds, argMax: int) returns (r: Result<Prepared, Reason>)
    ensures r.Ok? <==>
              && Preparable(info) && Timely(info, launch)
              && WithinRuntime(RequestBytes(info.executable, info.arguments, info.environment), argMax)
    ensures Preparable(info) && r.Err? ==> Circumstantial(r.error)
    ensures r == Err(GraceOutOfRange) ==> !(0 <= info.grace <= MAX_GRACE)
    ensures r == Err(TimeoutNotPositive) ==> info.timeout.Some? && info.timeout.value <= 0
    ensures r == Err(DeadlineOutOfRange) ==> info.timeout.Some? && launch + info.timeout.value > CLOCK_MAX
    ensures r == Err(RuntimeLimitUnavailable) ==> argMax <= SAFETY_MARGIN
    ensures r == Err(RuntimeLimit) ==> argMax > SAFETY_MARGIN
    ensures r == Err(RuntimeLimit) ==>
              RequestBytes(info.executable, info.arguments, info.environment) > argMax - SAFETY_MARGIN
    ensures r.Ok? ==> r.value.bytes == RequestBytes(info.executable, info.arguments, info.environment)
    ensures r.Ok? ==> r.value.deadline == if info.timeout.Some? then Some(launch + info.timeout.value) else None
    ensures r.Ok? ==> r.value.candidates == Expected(info)
  {
    if !ValidCommand(info.executable) {
      return Err(ExecutableInvalid);
    }
    if !ValidDirectory(info.directory) {
      return Err(DirectoryInvalid);
    }
    if |info.arguments| > MAX_ARGUMENTS {
      return Err(TooManyArguments);
    }
    var deadline := CheckTimes(info, launch);
    if deadline.Err? {
      return Err(deadline.error);
    }
    var error, bytes := CountRequest(info);
    if error.Some? {
      return Err(error.value);
    }
    if argMax <= SAFETY_MARGIN {
      return Err(RuntimeLimitUnavailable);
    }
    if bytes > argMax - SAFETY_MARGIN {
      return Err(RuntimeLimit);
    }
    var candidates := PrepareCandidates(info);
    if candidates.Err? {
      return Err(candidates.error);
    }
    return Ok(Prepared(candidates.value, bytes, deadline.value));
  }

  // ---------- Admission is enough ----------

  /** The environment a job is launched with. */
  function LaunchEnvironment(p: Payload, job: Bytes, run: Bytes, attempt: Bytes): Environment {
    Assigned(p.environment)[JOB_ID := job][RUN_ID := run][ATTEMPT := attempt]
  }

  function Launch(p: Payload, job: Bytes, run: Bytes, attempt: Bytes, grace: Nanoseconds,
                  timeout: Option<Nanoseconds>): StartInfo
  {
    StartInfo(p.command, p.arguments, p.directory, LaunchEnvironment(p, job, run, attempt), grace, timeout)
  }

  predicate Metadata(value: Bytes, limit: nat) {
    |value| <= limit && NoNul(value)
  }

  lemma NamesApart(env: Environment)
    requires forall name :: name in env ==> !Reserved(name)
    ensures JOB_ID !in env && RUN_ID !in env && ATTEMPT !in env && PATH != JOB_ID && PATH != RUN_ID && PATH != ATTEMPT
    ensures JOB_ID != RUN_ID && JOB_ID != ATTEMPT && RUN_ID != ATTEMPT
    ensures ValidName(JOB_ID) && ValidName(RUN_ID) && ValidName(ATTEMPT)
  {
    assert JOB_ID[5] != RUN_ID[5];
    assert |PATH| == 4;
  }

  lemma LaunchBytes(env: Environment, job: Bytes, run: Bytes, attempt: Bytes)
    requires forall name :: name in env ==> !Reserved(name)
    requires |job| <= UUID_BYTES && |run| <= UUID_BYTES && |attempt| <= ATTEMPT_BYTES
    ensures EnvironmentBytes(env[JOB_ID := job][RUN_ID := run][ATTEMPT := attempt])
         <= EnvironmentBytes(env) + ReservedBytes()
  {
    NamesApart(env);
    EntryAdded(env, JOB_ID, job);
    EntryAdded(env[JOB_ID := job], RUN_ID, run);
    EntryAdded(env[JOB_ID := job][RUN_ID := run], ATTEMPT, attempt);
  }

  lemma LaunchVariables(env: Environment, job: Bytes, run: Bytes, attempt: Bytes)
    requires forall name :: name in env ==> !Reserved(name) && ValidName(name) && NoNul(env[name])
    requires NoNul(job) && NoNul(run) && NoNul(attempt)
    ensures var all := env[JOB_ID := job][RUN_ID := run][ATTEMPT := attempt];
            forall name :: name in all ==> ValidName(name) && NoNul(all[name])
  {
    NamesApart(env);
  }

  lemma LaunchSearch(command: Bytes, env: Environment, job: Bytes, run: Bytes, attempt: Bytes)
    requires (forall name :: name in env ==> !Reserved(name)) && command != [] && SearchFits(command, env)
    ensures SearchFits(command, env[JOB_ID := job][RUN_ID := run][ATTEMPT := attempt])
  {
    NamesApart(env);
  }

  /** An admitted payload, launched with the daemon's three variables, is preparable as it stands. */
  lemma AdmittedIsPreparable(p: Payload, job: Bytes, run: Bytes, attempt: Bytes, grace: Nanoseconds,
                             timeout: Option<Nanoseconds>)
    requires Admissible(p)
    requires Metadata(job, UUID_BYTES) && Metadata(run, UUID_BYTES) && Metadata(attempt, ATTEMPT_BYTES)
    ensures Preparable(Launch(p, job, run, attempt, grace, timeout))
  {
    var env := Assigned(p.environment);
    forall name | name in env
      ensures ValidName(name) && !Reserved(name) && NoNul(env[name])
    {
      assert ValidVariable(name, p.environment[name]);
    }
    LaunchBytes(env, job, run, attempt);
    LaunchVariables(env, job, run, attempt);
    LaunchSearch(p.command, env, job, run, attempt);
  }

  /** Admission and then preparation: an accepted payload is refused only for its circumstances. */
  method AdmitAndPrepare(p: Payload, job: Bytes, run: Bytes, attempt: Bytes, grace: Nanoseconds,
                         timeout: Option<Nanoseconds>, launch: Nanoseconds, argMax: int)
    returns (issue: Issue, r: Option<Result<Prepared, Reason>>)
    requires Metadata(job, UUID_BYTES) && Metadata(run, UUID_BYTES) && Metadata(attempt, ATTEMPT_BYTES)
    ensures r.Some? <==> issue == Accepted
    ensures r.Some? && r.value.Err? ==> Circumstantial(r.value.error)
    ensures r.Some? ==> var info := Launch(p, job, run, attempt, grace, timeout);
                        var bytes := RequestBytes(info.executable, info.arguments, info.environment);
                        r.value.Ok? <==> Timely(info, launch) && WithinRuntime(bytes, argMax)
  {
    issue := Admit(p);
    if issue != Accepted {
      return issue, None;
    }
    AdmittedIsPreparable(p, job, run, attempt, grace, timeout);
    var prepared := Prepare(Launch(p, job, run, attempt, grace, timeout), launch, argMax);
    return issue, Some(prepared);
  }
}
