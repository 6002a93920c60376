# Verified model of the JobU daemon core

This project models the parts of JobU whose correctness does not show in any
single function: a process supervisor driven by native events, a cron engine,
an event loop with its timers, inboxes and descriptor registrations, guarded
database transactions, a replaying client, the attribute and JSON codecs, and
the bounded counters and buffers around command-line jobs.
`dafny verify dfyconfig.toml` (Dafny 4.11) checks the whole project.

## How the outside world is modelled

* System calls, the kernel, the database driver and the network are arbitrary:
  each module takes their answers from a script or from functions of the step
  number, and every theorem holds for all of them. An exhausted script refuses
  or would block.
* Objects that the source updates in place are classes with the same fields;
  ghost fields hold the abstract value or the history they are proved against.
* Concurrency in the event-loop inboxes is a state machine whose steps are the
  atomic actions between lock operations; theorems are about every
  interleaving.
* Error texts and details are not modelled; error conditions are. The codec
  collapses the many ways a document can be malformed into one refusal.

| file | models |
|---|---|
| ProcessExits, ProcessHistory, Process | process lifecycle and the history it writes |
| Calendar, CronSearch, CronEngine, CronParser, CronText | cron expressions and their occurrences |
| BinaryHeap, TimerHeap | timers of the event loop |
| EventInbox | posting to and draining of the event loop |
| Kqueue | descriptor registration with journal and rollback |
| Database | transactions, guards, tokens and poisoning |
| ReplayClient | synchronous calls, reconnection and replay |
| Utf8, JsonValues, JsonBuilder, JsonDocuments | text check, JSON reader and what it reads back |
| AttributeCodec, Attributes, AttributeDocuments | attribute values, materialization and documents |
| Admission | payload admission and process preparation |
| Capture | bounded output capture |
| Uuid | UUID version 7 |
| ExitCodes | retry exit-code selectors |

## Where the source does not keep a promise

* An accepted run need not complete. Two guards leave it without any pending
  event that would end it. If the post-reap deadline fires while the exec
  status is still unresolved, the final drain returns early, but every entry
  point of the outputs has already been retired. And the exit of a child is
  reported once (`src/core/event_loop_backend.hpp`, line 66): if the wait it
  causes answers zero, the termination timer is cancelled and the KILL spent,
  so nothing waits again. `EveryStartCanStrand` and `EveryExitCanStrand` show
  the two; `EveryRun` and `Drive` that an active run is attended exactly when
  neither guard was hit; and `Conclude` that an attended run completes.
* An active transaction guard destroyed on a thread that does not own the
  connection leaves guarded ownership behind that nothing can give up.
  `Transaction.Destroy` states the exact condition, and `Databases.Drive` that
  the state is permanent.
* A mutation that was executed is reported as certain to have failed when the
  wait is abandoned while an oversized-response error is queued undelivered:
  cancelling the call clears the uncertainty. `UncertaintyIsExact` and
  `Client.Call` state that this is the only case.
* A begin that fails but leaves its native transaction open leaves it without
  owner and without poison, and the next begin is sent into it. The driver
  interface does not rule that out. `Databases.Drive` has the exact condition,
  `StrayBegin` the instance.
* An attribute document can be written that cannot be read: with a registry
  whose own built-in value is invalid, or with values nested deeper than the
  JSON reader's own limit of 64 containers. A list or map takes two of them, so
  nesting from 32 levels on is always refused, and 30 never, though the codec
  allows 64. `PartialRoundTrip` and `MaterializedRoundTrip` have the exact
  conditions, `BrokenBuiltIn` and `TallTower` the instances.

## Model

| member | source | states |
|---|---|---|
| `ProcessLifecycle.EveryRun` | src/core/process.cpp:41-785 | from a fresh object, for every sequence of starts, events and native answers and for slots that stop or restart: the history stays lawful, a child is accepted and unfinished exactly when it is the one of the active run, and an active run has an event pending that will end it exactly when neither of the two guards was hit |
| `ProcessLifecycle.Process.Drive` | src/core/process.cpp:41-785 | the same from any usable state; every input is taken until destruction or a foreign reap; and a run whose child was not there to be waited for, or that no event reaches, stays uncompleted whatever happens short of destruction |
| `ProcessLifecycle.Process.Handle` | src/core/process.cpp:48-312 | each call and each live event does what the interface promises of it: starts, stops, settles, drains, reaps, escalates or completes; a stale event changes nothing |
| `ProcessLifecycle.Conclude` | src/core/process.cpp:567-680 | an attended run completes when its exit, the end of its grace and its last drain arrive, whatever the system answers, unless a guard is hit or a wait fails |
| `ProcessLifecycle.EveryDeadlineStops` | src/core/process.cpp:551-565 | in every usable state a run that is starting or running and has a deadline has its timeout armed, and is stopped as timed out when it fires |
| `ProcessLifecycle.EveryExitCanStrand` | src/core/process.cpp:597-612 | bounded completion is false with a settled exec status too: the exit is reported once, and if the wait it causes answers zero the child of any running run is never reaped and the run never completes |
| `ProcessHistory.OwedByChild` | src/core/process.cpp:682-706 | if the balance of acceptances and completions is one or zero, exactly the newest child, or none, is accepted and unfinished |
| `ProcessHistory.NoSignalAfterReap` | src/core/process.cpp:508-522 | once a child was reaped no group signal, leader signal, second reap or stop ever concerns it |
| `ProcessHistory.KillBeforeReap` | src/core/process.cpp:567-680 | an accepted child is reaped only after a KILL was attempted on its whole group |
| `ProcessHistory.FinishedIsLast` | src/core/process.cpp:682-706 | a completion is emitted at most once per child and nothing happens to that child afterwards |
| `ProcessHistory.FirstStopWins` | src/core/process.cpp:280-312 | the first accepted stop cause is the only one and is the kind the completion reports |
| `ProcessHistory.FinishedIsReady` | src/core/process.cpp:682-706 | a completed child was accepted, group-killed, reaped, resolved and had both outputs closed, and its record fits all of that |
| `ProcessHistory.LawfulAt` | src/core/process.hpp:154-171 | in a lawful history every single event was allowed by the events before it: started before output, output before close, completion last |
| `ProcessExits.SetupCodesAreValid` | src/jobu/cli_exit_policy_priv.cpp:77-80 | every setup error a child can report is accepted by the completion policy check |
| `ProcessExits.ObservedOnce` | src/jobu/cli_exit_policy_priv.cpp:82-116 | a decoded wait status always yields exactly one of exit code and signal, as the policy check demands |
| `ProcessLifecycle.Process.ResultFits` | src/core/process.cpp:682-706 | every record a ready run can emit passes the policy check, carries the fixed stop cause and reports losses exactly |
| `ProcessLifecycle.EveryStartCanStrand` | src/core/process.cpp:582-595 | bounded completion is false: any run in Starting can be driven to a state that no event leaves, by a post-reap deadline before the exec status is known |
| `ProcessLifecycle.Process.PostReapDrainExpired` | src/core/process.cpp:582-595 | the post-reap deadline completes the run whenever the exec status was resolved before it; otherwise it completes or leaves the run stranded |
| `ProcessLifecycle.Process.FinalDrains` | src/core/process.cpp:365-458 | a launch channel that is resolved beforehand makes the final drains close both outputs; otherwise what stays open has no entry point left |
| `ProcessLifecycle.Process.Start` | src/core/process.cpp:48-85 | accepted exactly when idle and every native step up to the open gate succeeds; then the request is kept, one completion is owed, and a deadline has its timeout armed; otherwise nothing is left |
| `ProcessLifecycle.Process.LaunchChild` | src/core/process.cpp:116-278 | every failing step of a launch kills, reaps and forgets the child; an accepted one is live, and stopped at once exactly when its deadline has passed |
| `ProcessLifecycle.Process.Stop` | src/core/process.cpp:280-312 | accepted, repeated, conflicting, invalid and unsent stop requests, each with its exact condition, and the cause of each reason |
| `ProcessLifecycle.Process.StopRun` | src/core/process.cpp:280-312 | a stop request never changes a fixed cause and never signals a reaped group |
| `ProcessLifecycle.Process.BeginStopping` | src/core/process.cpp:524-549 | the cause is fixed; without grace the group is killed, with it the termination timer is armed for the saturated deadline, or the group is killed when it cannot be |
| `ProcessLifecycle.Process.AttemptGroupKill` | src/core/process.cpp:508-522 | the group KILL is sent at most once, and only to a group that is still owned |
| `ProcessLifecycle.Process.ReadStatus` | src/core/process.cpp:460-498 | the launch channel is resolved exactly when what is read does not end in would-block, with the error its bytes prove, and the slots of started run only after a clean launch |
| `ProcessLifecycle.Native.PullStatus` | src/core/process.cpp:460-498 | partial reads add up until the record is complete, interruptions are retried, and end of file, error and would-block are told apart |
| `ProcessLifecycle.Process.DrainOutput` | src/core/process.cpp:365-458 | a readiness drain reads at most one budget and never past an unresolved launch channel; an output it leaves open would block or has its continuation queued |
| `ProcessLifecycle.Process.ReadChunks` | src/core/process.cpp:400-458 | one drain goes on until the budget is used up, the output ends or it would block, and delivers no more than the budget |
| `ProcessLifecycle.Process.ReadChunk` | src/core/process.cpp:400-430 | bytes are handed to the slots, an end closes the output without loss, an error closes it as lost, and an interruption is retried |
| `ProcessLifecycle.Process.RetireOutput` | src/core/process.cpp:340-363 | an output is closed once and reported lost exactly when no end of file was seen |
| `ProcessLifecycle.Process.ReapChild` | src/core/process.cpp:597-612 | a reap leads to completion or to finishing with any status word; a wait that answers zero leaves the child unreaped, and a foreign reap halts |
| `ProcessLifecycle.Process.EnterFinishing` | src/core/process.cpp:614-655 | after the reap the run completes or keeps a deadline for what stays open |
| `ProcessLifecycle.Process.CompleteIfReady` | src/core/process.cpp:682-706 | the completion is emitted exactly when leader, launch channel and both outputs have come to an end |
| `ProcessLifecycle.Process.Finish` | src/core/process.cpp:682-706 | everything is torn down before the one completion event |
| `ProcessLifecycle.Process.Cleanup` | src/core/process.cpp:708-785 | a child still owned is killed and reaped, and the object is idle afterwards |
| `ProcessLifecycle.Process.ChildReady` | src/core/process.cpp:657-680 | the exit is handled once for a child: it completes the run, leaves it finishing or held for its grace, or leaves it unreaped when the wait answers zero; any other delivery changes nothing |
| `ProcessLifecycle.Process.HoldOrReap` | src/core/process.cpp:657-680 | the exited leader is held exactly while its termination grace lasts; otherwise the answer to the wait decides between reaped, not there yet and fatal |
| `ProcessLifecycle.Process.TimeoutExpired` | src/core/process.cpp:551-565 | a live timeout becomes the stop cause unless one is fixed |
| `ProcessLifecycle.Process.TerminationGraceExpired` | src/core/process.cpp:567-580 | the end of the grace period escalates to a group KILL and ends a run whose leader was held, unless the wait answers zero |
| `ProcessLifecycle.Process.PostReapExpired` | src/core/process.cpp:582-595 | the current post-reap timer completes the run, unless the exec status is unresolved, and a stale one changes nothing |
| `ProcessLifecycle.Process.OutputReady` | src/core/process.cpp:365-386 | a live output event drains that output and no other, closes it at its end, and delivers the completion if that was the last part; a stale one changes nothing |
| `ProcessLifecycle.Process.StatusReady` | src/core/process.cpp:460-498 | a live status event settles the channel when it can, and delivers the completion of a run that was only waiting for it |
| `ProcessLifecycle.Process.Destroy` | src/core/process.cpp:41-46 | destruction kills, reaps and abandons a run, and leaves nothing owed |
| `CronSearch.NextLocalOccurrence` | src/jobu/cron_expression_priv.cpp:414-487 | the result is the least selected local minute after the bound; no future occurrence is reported exactly when no selected date exists; out of range exactly when the year of the bound is outside -32767 to 32368 |
| `CronSearch.MatchesCivil` | src/jobu/cron_expression_priv.cpp:449-480 | a minute given by date and time is selected exactly by its month, day, hour, minute and the weekday the closed formula gives |
| `CronSearch.WindowSuffices` | src/jobu/cron_expression_priv.cpp:434-445 | the 400-year window always contains a match if any selected date exists |
| `Calendar.EveryWeekdayComes` | src/jobu/cron_expression_priv.cpp:438-445 | every date, 29 February included, falls on every weekday within the window |
| `Calendar.CivilWeekday` | src/jobu/cron_expression_priv.cpp:458-461 | the weekday of every date is that of the closed formula over year, leap days, month and day |
| `Calendar.CivilDay` | src/jobu/cron_expression_priv.cpp:458-463 | the day number of every date is that of the closed formula, which fixes leap years, month lengths and the epoch |
| `Calendar.DateRoundTrip` | src/jobu/cron_expression_priv.cpp:434-463 | day number and calendar date determine each other |
| `CronSearch.Exhausted` | src/jobu/cron_expression_priv.cpp:438-486 | a window without a match means that no minute ever matches |
| `CronSearch.SearchClock` | src/jobu/cron_expression_priv.cpp:465-480 | the hour and minute loops find the first selected minute of the day |
| `CronSearch.SearchDay` | src/jobu/cron_expression_priv.cpp:458-480 | the first match of one date, or none |
| `CronSearch.SearchYears` | src/jobu/cron_expression_priv.cpp:445-484 | the first match of a run of years, or none |
| `CronEngine.NextAfter` | src/jobu/cron.cpp:136-189 | the one answer there is for any conversion: at the first selected minute the cursor does not pass, out of range, past the window, unconvertible or found |
| `CronEngine.SucceedsExactly` | src/jobu/cron.cpp:136-189 | the answer is u exactly when the bound converts, the window is in range and u is where the first selected minute past the bound leads, representable, in the window and with every earlier one passed |
| `CronEngine.OneAnswer` | src/jobu/cron.cpp:160-188 | there is exactly one answer to a bound, since there is one decisive minute |
| `CronEngine.GivesUpRightly` | src/jobu/cron.cpp:172-176 | a search that gives up has every selected minute of the window at or before the bound |
| `CronEngine.NextOccurrences` | src/jobu/cron.cpp:191-213 | the asked number of occurrences, each the answer to the one before; a failure is the answer to the last one found |
| `CronParser.ParseCronExpression` | src/jobu/cron_expression_priv.cpp:389-412 | the parser accepts exactly the denoted texts and returns exactly the denoted sets, non-empty and in range |
| `CronParser.FieldsSelect` | src/jobu/cron_expression_priv.cpp:389-412 | an accepted expression selects at least one value in every field, all within their bounds |
| `CronParser.FieldSelects` | src/jobu/cron_expression_priv.cpp:211-231 | every member of an accepted field is valid, the field selects exactly what some member selects, and that is non-empty and in range |
| `CronParser.ParseField` | src/jobu/cron_expression_priv.cpp:211-231 | a comma-separated field is read member by member and fails with its first bad member |
| `CronParser.ParseLinearMember` | src/jobu/cron_expression_priv.cpp:151-209 | scanning for one slash and one dash selects exactly the values, ranges, steps and wildcards denoted by the pieces between them |
| `CronParser.ParseWeekdayMember` | src/jobu/cron_expression_priv.cpp:260-321 | the same for weekdays: ranges wrap around, a wildcard takes no step, and the two numbers of Sunday are kept apart |
| `CronParser.SplitIsExact` | src/jobu/cron_expression_priv.cpp:151-209 | the pieces of a text contain no separator and, joined by it, make up the text |
| `CronParser.NamesInOrder` | src/jobu/cron_expression_priv.cpp:32-56 | month and weekday names are those of the calendar, each standing for its place |
| `CronText.ExpressionsRead` | src/jobu/cron_expression_priv.cpp:389-412 | fields spelled with blanks between and around them are read in the order minute, hour, day, month, weekday; any other number of fields is refused |
| `CronText.ShorthandsRead` | src/jobu/cron_expression_priv.cpp:373-385 | a shorthand stands for the five fields documented for it |
| `CronText.LinearMembersRead` | src/jobu/cron_expression_priv.cpp:151-209 | a value, range or star with or without a step, spelled out, is read back as what was written, and refused exactly when a value, the order or the step is out of bounds |
| `CronText.WeekdayMembersRead` | src/jobu/cron_expression_priv.cpp:260-321 | the same for spelled weekday members |
| `CronText.WeekdayRead` | src/jobu/cron_expression_priv.cpp:233-252 | weekday numbers run from 0 to 7 with Sunday at both ends, and names set neither spelling |
| `CronText.WalksRead` | src/jobu/cron_expression_priv.cpp:308-320 | a day is selected exactly when it lies on the walk forward from the first day to the last, at a multiple of the step |
| `CronText.NumbersRead` | src/jobu/cron_expression_priv.cpp:121-133 | every unsigned 32-bit number is read back from its decimal spelling and a larger one is refused |
| `CronText.CaseIsIgnored` | src/jobu/cron_expression_priv.cpp:103-119 | names are found whichever case their letters are written in |
| `CronText.StarField` | src/jobu/cron_expression_priv.cpp:211-231 | a star selects the whole of a field |
| `CronText.NumberField` | src/jobu/cron_expression_priv.cpp:211-231 | a number selects itself |
| `CronParser.SetSteps` | src/jobu/cron_expression_priv.cpp:202-208 | the step loop sets exactly the stepped values |
| `CronParser.SetCyclic` | src/jobu/cron_expression_priv.cpp:308-320 | the cyclic loop sets exactly the wrapped stepped values |
| `CronParser.SplitFields` | src/jobu/cron_expression_priv.cpp:342-371 | exactly five words, or nothing |
| `CronParser.TrimSeparators` | src/jobu/cron_expression_priv.cpp:92-101 | leading and trailing separators are dropped and nothing else |
| `CronParser.NextOccurrenceOf` | src/jobu/cron.cpp:136-189 | parsing and searching together return the least denoted occurrence |
| `BinaryHeap.PushHeap` | src/core/timer_heap.hpp:127-131 | heap order is kept and exactly one entry is added |
| `BinaryHeap.PopHeap` | src/core/timer_heap.hpp:133-140 | heap order is kept and exactly the front is removed |
| `BinaryHeap.FrontIsLeast` | src/core/timer_heap.hpp:21-23 | the front of a heap has the least deadline |
| `TimerHeap.Heap.Start` | src/core/timer_heap.hpp:41-48 | a new id, never given out before, is added to the table |
| `TimerHeap.Heap.Cancel` | src/core/timer_heap.hpp:51-54 | the timer leaves the table at once; unknown ids change nothing |
| `TimerHeap.Heap.DiscardCancelledTop` | src/core/timer_heap.hpp:113-125 | entries are dropped only while their timer is not in the table, and the front left is the table minimum |
| `TimerHeap.Heap.NextDeadline` | src/core/timer_heap.hpp:57-69 | the least deadline of the table, or none exactly when the table is empty |
| `TimerHeap.Heap.FireExpired` | src/core/timer_heap.hpp:72-101 | with passive callbacks: every timer fires exactly at its due deadlines, in nondecreasing order, and the table is advanced accordingly |
| `TimerHeap.Heap.FireExpiredWith` | src/core/timer_heap.hpp:72-101 | with callbacks that start and cancel timers it refines a machine over the plain table: each firing is that of the earliest due timer, the k-th performs its part of the script, the table is then advanced, and nothing due is left |
| `TimerHeap.Heap.RunCallback` | src/core/timer_heap.hpp:84-88 | the table becomes the fold of the actions over it, each timer with the deadline and interval it was started with, while the firing timer is out of the heap |
| `TimerHeap.DueCount` | src/core/timer_heap.hpp:88-96 | a repeating timer due at d fires floor((now - d) / interval) + 1 times, at d plus multiples of the interval |
| `TimerHeap.RetiredStaysDead` | src/core/timer_heap.hpp:51-54 | a cancelled or finished timer never fires again |
| `TimerHeap.Heap.Rearm` | src/core/timer_heap.hpp:86-99 | a repeating timer is armed again from its own deadline unless its callback cancelled it |
| `EventInbox.NoWakeupLost` | src/core/event_loop.cpp:83-144 | in every reachable state about to block, a nonempty inbox or a signalled producer has the wake-up set |
| `EventInbox.FinishedInOrder` | src/core/event_loop.cpp:507-568 | accepted items are finished in acceptance order, each at most once, none is lost, and tasks and deletions are always worked on |
| `EventInbox.StepFates` | src/core/event_loop.cpp:304-335 | no step throws a task or a deletion away, and the only step that throws events away is the last one of run() |
| `EventInbox.DiscardedAll` | src/core/event_loop.cpp:304-335 | the last step of run() throws away exactly what was still queued |
| `EventInbox.PostWorks` | src/core/event_loop.cpp:83-144 | a producer that gets the lock can always post: its item is queued last and the wake-up signalled |
| `EventInbox.LoopTurns` | src/core/event_loop.cpp:304-335 | the loop always has a next step when the locks are free, and its poll takes the wake-up it saw and no other |
| `EventInbox.EveryRoundServes` | src/core/event_loop.cpp:392-452 | everything accepted when poll returned is finished before the loop blocks again |
| `EventInbox.StepKeepsInv` | src/core/event_loop.cpp:304-335 | every producer and loop step, shutdown and restart included, keeps the inbox invariant |
| `Kqueue.Backend.AddFd` | src/core/event_loop_backend_kqueue.cpp:84-110 | succeeds exactly when healthy and no change is refused; then each native filter has the requested mode even after descriptor reuse; a failure that leaves the backend healthy changes no native filter |
| `Kqueue.Backend.RemoveFd` | src/core/event_loop_backend_kqueue.cpp:112-131 | succeeds exactly when healthy and no change is refused, and leaves no native filter; a survivable failure keeps an exact table exact |
| `Kqueue.Transition` | src/core/event_loop_backend_kqueue_priv.hpp:67-141 | applied exactly when no change is refused; a partial refresh of an existing registration is never rolled back, and otherwise it takes a second refusal to fail the rollback |
| `Kqueue.ChangeBoth` | src/core/event_loop_backend_kqueue_priv.hpp:78-118 | at most four journal entries, whose replay leads back to what was there or recorded |
| `Kqueue.RollBack` | src/core/event_loop_backend_kqueue_priv.hpp:129-137 | a successful rollback leaves exactly what replaying the journal backwards yields |
| `Kqueue.FiltersApart` | src/core/event_loop_backend_kqueue_priv.hpp:129-137 | the two filters are undone independently of each other |
| `Kqueue.Kernel.ApplyFilter` | src/core/event_loop_backend_kqueue.cpp:316-337 | interruptions are retried, a filter that is missing, or whose descriptor is, counts as deleted, and an existing one keeps its mode |
| `Kqueue.Backend.Drive` | src/core/event_loop_backend_kqueue.cpp:348-371 | over any sequence of operations, closes and failures: every native filter is recorded while healthy, and once unhealthy nothing succeeds |
| `Databases.Drive` | src/db/database.cpp:138-364 | over every run, any threads and any driver: some state has a native transaction without owner and poison exactly when some begin failed and left one open, begin reaches the driver inside a native transaction only after that, and guarded ownership has exactly one active guard until a step loses it |
| `Databases.Guard` | src/db/transaction.cpp:23-85 | a guard operation loses ownership exactly when it destroys an active guard on a foreign thread, and lost ownership stays lost |
| `Databases.Direct` | src/db/database.cpp:100-272 | each direct operation asks of the driver what it stands for |
| `Databases.StrayBegin` | src/db/database.cpp:191-213 | a begin that fails inside leaves a transaction that nobody holds, and the next begin reaches the driver inside it |
| `Databases.Transaction.Destroy` | src/db/transaction.cpp:23-36 | ownership stays sound exactly when the guard was inactive or is destroyed on the connection thread; otherwise the connection is orphaned for good |
| `Databases.Transaction.Start` | src/db/transaction.cpp:43-50 | a success makes the one active guard; an orphaned connection never starts another |
| `Databases.Transaction.Finish` | src/db/transaction.cpp:57-85 | the guard lets go exactly when it no longer owns the transaction, and an owner mismatch cannot happen |
| `Databases.Transaction.Move` | src/db/transaction.cpp:38-41 | ownership moves to the new guard and the source is inactive |
| `Databases.Database.Open` | src/db/database.cpp:100-136 | succeeds exactly for a free connection the driver opens or an open one on its own thread, and then has no transaction; each refusal has its condition |
| `Databases.Database.Close` | src/db/database.cpp:138-189 | live queries and guarded ownership refuse without asking the driver; a direct transaction is rolled back first, and a failed rollback poisons and ends the close |
| `Databases.Database.Begin` | src/db/database.cpp:191-213 | begin reaches the driver inside a native transaction exactly when the caller may begin and one is open, which takes an earlier begin that failed and left it |
| `Databases.Database.Commit` | src/db/database.cpp:215-242 | asks the driver to commit exactly for the direct owner on its thread; a failed commit keeps ownership |
| `Databases.Database.Rollback` | src/db/database.cpp:244-272 | asks the driver to roll back exactly for the direct owner on its thread; a failed one poisons, and either gives up ownership |
| `Databases.Database.BeginGuarded` | src/db/database.cpp:274-301 | the next nonzero token, wrapping past zero, given only when no guard is active; stray transactions as for begin |
| `Databases.Database.FinishGuarded` | src/db/database.cpp:303-358 | commit and rollback by token: what the driver is asked, and exact conditions for keeping, releasing, mismatch and poisoning |
| `Databases.Database.OperationError` | src/db/database_priv.hpp:32-56 | no error exactly for an open, unpoisoned connection on its own thread |
| `ReplayClient.Client.Call` | src/jobu-php/client.cpp:302-365 | anything but a read, a suspend or resume, or a keyed creation executes at most once; a failure says exactly whether some attempt is uncertain, and one that is not means not executed, except in the named case, then exactly once; retries wait out doubling delays before the deadline; every path ends |
| `ReplayClient.RepeatableExactly` | src/jobu-php/operation.cpp:14-40 | the policy table replays exactly the reads, the four suspend and resume requests and the three keyed creations |
| `ReplayClient.UncertainExactly` | src/jobu/client/control_client_results.cpp:65-88 | a failed attempt is uncertain exactly when it was a mutation that may have run, and succeeds exactly with a response that decodes |
| `ReplayClient.DelaysDouble` | src/jobu-php/client.cpp:286-290 | delays double from 10 to 160 milliseconds and stay at 250 |
| `ReplayClient.UncertaintyIsExact` | src/jobu-php/operation.cpp:165-171 | an executed and failed mutation is marked uncertain exactly unless the wait was abandoned with an oversized-response error queued |
| `ReplayClient.SomeAttemptForgets` | src/jobu/client/control_client.cpp:597-620 | the failing case exists for every mutation |
| `ReplayClient.Client.Connect` | src/jobu-php/client.cpp:253-292 | without recovery one connection attempt; with it a retry comes after all delays before it and its wait began before the deadline, which bounds their number; success means a ready client |
| `ReplayClient.Client.Submit` | src/jobu-php/client.cpp:148-197 | one submission, made only before the deadline, with the uncertainty of all attempts so far |
| `ReplayClient.World.WaitToReconnect` | src/jobu-php/client.cpp:230-240 | a pause succeeds only after its whole delay and only if it began before the deadline |
| `ReplayClient.World.CallSynchronously` | src/jobu-php/client.cpp:148-197 | the reply is the one the attempt yields, and nothing is submitted at or past the deadline |
| `ReplayClient.ReadsAreNotMutations` | src/jobu/client/control_client_results.cpp:65-88 | the policy table and the typed client agree on which methods mutate |
| `Utf8.IsValidUtf8` | src/core/json.cpp:84-153 | true exactly for concatenations of encoded Unicode scalar values |
| `Utf8.EncodedAccepted` | src/core/json.cpp:92-150 | every encoded scalar value at the front is accepted with exactly its length |
| `Utf8.AcceptedEncodes` | src/core/json.cpp:92-150 | every accepted sequence is the encoding of a scalar value |
| `JsonBuilder.Read` | src/core/json.cpp:160-355 | for every document: its value, or the first failure in reading order; a well-formed document is rebuilt within the depth limit and fails with the depth error beyond it |
| `JsonBuilder.RunDocument` | src/core/json.cpp:287-355 | fed the events of a document, the stack machine adds exactly its value or fails with exactly its failure |
| `JsonBuilder.GoodBuilds` | src/core/json.cpp:293-308 | a well-formed document builds its own tree exactly when its depth fits |
| `JsonBuilder.Parser.Feed` | src/core/json.cpp:160-280 | the parser object refines the stack machine event by event |
| `JsonBuilder.Parser.Name` | src/core/json.cpp:228-247 | invalid and duplicate member names are refused while they are still visible |
| `JsonDocuments.ReadBack` | src/core/json.cpp:287-408 | text that spells a serializable value, its members in any order, is read back as the value up to integer spelling exactly when its containers fit the depth limit, and fails on the depth otherwise |
| `JsonDocuments.SpelledTree` | src/core/json.cpp:359-408 | such text is well-formed and its tree is the value up to integer spelling |
| `JsonDocuments.SpelledDepth` | src/core/json.cpp:293-308 | the nesting of the text is that of the value |
| `JsonDocuments.Spelling` | src/core/json.cpp:359-408 | every value has such a text |
| `AttributeCodec.DecodeEncode` | src/jobu/attribute_codec_priv.cpp:151-328 | decoding an encoded value returns it, also after non-negative integers were re-read as unsigned |
| `AttributeCodec.EncodeDecode` | src/jobu/attribute_codec_priv.cpp:235-328 | whatever the decoder accepts is encoded back to the same JSON up to that spelling |
| `AttributeCodec.EncodedIsText` | src/jobu/attribute_codec_priv.cpp:151-224 | everything the codec makes can be serialized |
| `AttributeCodec.EncodedWithin` | src/jobu/attribute_codec_priv.cpp:151-224 | the containers of an encoded value: two for every list and map, one for every other value |
| `AttributeCodec.FitsByNesting` | src/jobu/attribute_codec_priv.cpp:151-224 | k nested lists or maps fit 2k + 1 and 2k + 2 containers, and what fits 2k or 2k + 1 is nested at most k deep |
| `AttributeCodec.UnhexHex` | src/jobu/attribute_codec_priv.cpp:108-149 | hexadecimal text decodes to the bytes it was made from |
| `AttributeCodec.HexUnhex` | src/jobu/attribute_codec_priv.cpp:121-149 | only the lower-case text itself decodes to given bytes |
| `AttributeCodec.BytesToHex` | src/jobu/attribute_codec_priv.cpp:108-119 | the byte loop spells every byte high digit first |
| `AttributeCodec.HexToBytes` | src/jobu/attribute_codec_priv.cpp:132-149 | odd lengths and foreign characters are refused; otherwise the loop reads back the bytes |
| `AttributeCodec.UnnodeNode` | src/jobu/attribute_codec_priv.cpp:226-245 | a tagged node is read back as its tag and payload |
| `AttributeCodec.NodeNames` | src/jobu/attribute_codec_priv.cpp:151-224 | nodes are spelled with the documented names |
| `AttributeDocuments.PartialRoundTrip` | src/jobu/attribute_codec_priv.cpp:366-474 | a partial document comes back exactly; from stored text, exactly when its values fit the depth limit of the reader |
| `AttributeDocuments.MaterializedRoundTrip` | src/jobu/attribute_codec_priv.cpp:330-474 | a materialized document, legacy extras included, comes back exactly when the built-in values of its runner are valid; from stored text, when its values also fit the depth limit of the reader |
| `AttributeDocuments.WrittenText` | src/jobu/domain_storage_priv.cpp:161-180 | a document can always be written, and its text is within the depth limit exactly when every value fits 62 containers |
| `AttributeDocuments.TallTower` | src/jobu/domain_storage_priv.cpp:161-180 | 1 to 64 lists inside each other are all written, and read back exactly up to 30 of them |
| `AttributeDocuments.VersionIsOne` | src/jobu/attribute_codec_priv.cpp:421-430 | a document of version 1 is taken in either integer spelling, and no other version is |
| `AttributeDocuments.BrokenBuiltIn` | src/jobu/attribute_codec_priv.cpp:455-465 | a registry whose documents can be written but not read |
| `AttributeDocuments.OlderSnapshot` | src/jobu/attribute_codec_priv.cpp:451-474 | reading keeps every stored value and adds exactly the missing built-in values |
| `Attributes.Materialize` | src/jobu/attribute_registry.cpp:832-882 | succeeds exactly for acceptable layers and returns the layers laid over the built-in values |
| `Attributes.MaterializedExactly` | src/jobu/attribute_registry.cpp:856-882 | the result has exactly the applicable job attributes, each with its most specific value |
| `Attributes.MaterializedPolicies` | src/jobu/attribute_registry.cpp:96-150 | a materialized set has its retry delays in order and allows redirects where it follows them |
| `Attributes.RulesExactly` | src/jobu/attribute_registry.cpp:96-150 | the two cross rules hold exactly when the delays are in order and a followed redirect is allowed |
| `Attributes.AppliesExactly` | src/jobu/attribute_registry.cpp:789-801 | a definition is withheld from a runner exactly when it is the own one of the other, and a value has exactly one kind |
| `Attributes.Rematerialize` | src/jobu/attribute_registry.cpp:832-882 | materializing a result again with empty defaults returns it unchanged |
| `Attributes.AcceptableComplete` | src/jobu/attribute_registry.cpp:152-178 | a complete applicable set is accepted exactly when the built-in values are valid |
| `Attributes.ValidateComplete` | src/jobu/attribute_registry.cpp:152-178 | valid in job scope, nothing applicable missing, and the cross rules in the applicable view |
| `Attributes.Overlay` | src/jobu/attribute_registry.cpp:869-875 | a layer overrides exactly the names it has and the runner uses |
| `Attributes.Seed` | src/jobu/attribute_registry.cpp:857-868 | the built-in values of the runner, or failure when one of them is invalid |
| `Admission.AdmitAndPrepare` | src/jobu/cli_job_payload_priv.cpp:273-319 | an accepted payload is prepared exactly when its grace, its timeout and the run-time argument limit allow it |
| `Admission.AdmittedIsPreparable` | src/core/process_request_priv.cpp:133-198 | with the three daemon variables added, everything preparation checks in the text of an admitted payload holds |
| `Admission.Admit` | src/jobu/cli_job_payload_priv.cpp:273-319 | accepted exactly when command, arguments, directory, variables, PATH and total size are all within bounds |
| `Admission.Prepare` | src/core/process_request_priv.cpp:133-198 | succeeds exactly for a text that fits, a grace and a deadline in range and a size within the run-time limit; then the counted bytes, the deadline and the candidates in PATH order |
| `Admission.CheckedDeadline` | src/core/process_request_priv.cpp:101-111 | the deadline exactly when the timeout is positive and the clock can show it, without leaving the range of the clock on the way |
| `Admission.PathsExactly` | src/core/process_request_priv.cpp:135-145 | commands are absolute paths or names without a slash, and directories absolute paths, of 1 to 4096 bytes without NUL |
| `Admission.NamesGrow` | src/core/process_request_priv.cpp:29-41 | a variable name starts with a letter and goes on with letters and digits |
| `Admission.AddBytes` | src/jobu/cli_job_payload_priv.cpp:76-83 | bounded addition succeeds exactly when the total fits |
| `Admission.AddWithin` | src/core/process_request_priv.cpp:44-51 | the same without the first check, never called past the limit |
| `Admission.RequestFits` | src/jobu/cli_job_payload_priv.cpp:240-271 | stepwise counting succeeds exactly when the whole request with its reserve fits |
| `Admission.CheckPath` | src/jobu/cli_job_payload_priv.cpp:181-218 | the PATH walk succeeds exactly when its entries are valid, few enough and small enough together |
| `Admission.WalkIsExact` | src/core/process_request_priv.cpp:53-97 | a walk from any point succeeds exactly when what is left fits with what was counted |
| `Admission.WalkPath` | src/core/process_request_priv.cpp:64-96 | preparation walks PATH, with its own addition, to the same verdict |
| `Admission.ListCandidates` | src/core/process_request_priv.cpp:86-92 | the candidates are the directories with the command appended, in order |
| `Admission.AnyEntryFirst` | src/jobu/cli_job_payload_priv.cpp:262-266 | the environment total does not depend on the order of its entries |
| `Admission.LaunchBytes` | src/jobu/cli_job_payload_priv.cpp:268-271 | the reserve covers the three daemon variables |
| `Capture.CaptureAll` | src/jobu/cli_capture_priv.cpp:47-122 | however the stream is cut into chunks: all of it, or its first larger and last smaller half of the limit, with an exact truncation flag |
| `Capture.Buffer.Append` | src/jobu/cli_capture_priv.cpp:47-67 | the stream grows by the chunk; an append past the 64-bit total changes nothing |
| `Capture.Buffer.AppendSuffix` | src/jobu/cli_capture_priv.cpp:69-97 | the ring goes on holding the newest bytes |
| `Capture.WrittenUnrolled` | src/jobu/cli_capture_priv.cpp:90-97 | overwriting part of a full ring drops its oldest bytes and appends the new ones |
| `Capture.Buffer.Take` | src/jobu/cli_capture_priv.cpp:99-122 | the kept part in stream order, the exact total and flag, and a fresh start |
| `Uuid.GenerateAll` | src/core/uuid.cpp:148-182 | for every clock, regressions included, and every random source: strictly increasing UUIDs of version 7 and the RFC variant |
| `Uuid.AfterAll` | src/core/uuid.cpp:148-182 | every UUID is after all earlier ones in byte order |
| `Uuid.Generator.Generate` | src/core/uuid.cpp:148-182 | a later millisecond is stamped, the same or an earlier one adds exactly one to the tail; a clock out of range, missing random bytes and exhaustion each have their exact condition, and failures change nothing |
| `Uuid.IncrementRandomTail` | src/core/uuid.cpp:184-216 | adds exactly one to the 74-bit tail in place, or reports that all its bits were set |
| `Uuid.CarryLow` | src/core/uuid.cpp:186-193 | the byte loop clears full bytes and increments the first other one |
| `Uuid.IncrementHigh` | src/core/uuid.cpp:195-216 | the carry passes around the version and variant bits |
| `Uuid.SetTimestamp` | src/core/uuid.cpp:95-101 | the leading bytes become the big-endian value and no other byte changes |
| `Uuid.NumberOrder` | src/core/uuid.cpp:95-101 | a smaller big-endian number is earlier in byte order |
| `Uuid.Parse` | src/core/uuid.cpp:105-125 | accepts exactly the dashed hexadecimal form, in either case, and returns its bytes |
| `Uuid.HexExactly` | src/core/uuid.cpp:105-125 | digits are read in either case and written in lower case, and nothing else is a digit |
| `Uuid.ToText` | src/core/uuid.cpp:127-142 | the canonical spelling |
| `Uuid.RoundTrip` | src/core/uuid.cpp:105-142 | parsing undoes spelling for every UUID |
| `ExitCodes.Decode` | src/jobu/cli_exit_policy_priv.cpp:194-238 | fails exactly for too many, unreadable or overlapping selectors; otherwise the merged ranges cover exactly the selected codes, once each |
| `ExitCodes.CoverIsNaming` | src/jobu/cli_exit_policy_priv.cpp:194-214 | a code is covered exactly when some selector names it |
| `ExitCodes.Normalize` | src/jobu/cli_exit_policy_priv.cpp:215-237 | merging keeps the coverage and leaves gaps; overlap is refused, not merged |
| `ExitCodes.Contains` | src/jobu/cli_exit_policy_priv.cpp:176-192 | the early exit finds a code exactly when a range covers it |
| `ExitCodes.ParseSelector` | src/jobu/cli_exit_policy_priv.cpp:148-168 | exactly one decimal code, or two increasing ones around a single dash |
| `ExitCodes.ParseExitCode` | src/jobu/cli_exit_policy_priv.cpp:128-146 | exactly the decimal spellings of 0 to 255 without leading zeros |
| `ExitCodes.SortRanges` | src/jobu/cli_exit_policy_priv.cpp:215 | sorted by first code with the same coverage |

## Left out

- Descriptors of a process run, the re-entrancy flags of a drain in progress, and the wrap-around of the generation counter; slots only stop or restart.
- ProcessLifecycle.Process.Destroy: destruction from inside a slot is not modelled, because the header forbids it.
- Time-zone databases: conversions between local time and UTC are arbitrary functions in CronEngine.
- Calendar years outside the range of the C++ calendar type: the source tests a value whose conversion is unspecified there, and the model takes the test as a range check.
- Overflow of time points in timers and deadlines, and of 64-bit timer ids.
- Partial flags of process_events and nested event pumping; the inbox model is the full loop. An object event whose receiver is gone counts as worked on.
- Kqueue process filters and descriptors closed in the middle of a registration; closes happen between operations.
- ReplayClient: session allocation, peer checks and idempotency-key generation are outcomes decided by the world; an error response other than the oversized one is taken to mean that nothing was executed.
- Database drivers, queries and SQL; a failed open is taken to leave no native transaction, and a failed close to leave what was there.
- JSON lexing and the spelling of single tokens; the builder starts from the token events, and the bound on the size of stored text, the same for writing and reading, is left out.
- AttributeCodec: maps are converted as a whole, so which of several errors is reported first is not modelled.
- AttributeCodec.DecodeEncode: durations are counts of nanoseconds, the tick of the clock the source uses, so a tick that nanoseconds cannot express does not arise.
- Attributes: the per-attribute value checks are one arbitrary predicate; registry names are taken to be distinct and, for documents, valid text.
- Admission: payload templates and JSON shapes; sizes are those of resolved text.
- The completion policy mapping of map_cli_completion beyond its validity check, whose cases restate its table.
- Uuid: the random source and the clock are inputs.
- SQL repositories, RPC plumbing, HTTP jobs, logging, signals and slots, and the language bindings, which are thin layers over the above.
