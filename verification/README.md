# Verified model of the judge's queue, supervision and evaluation

This project models four parts of the judge as state machines, functions and methods, and proves what
they guarantee:

* **The cluster job protocol.** Gateways claim a pending marker and append a job to a stream; workers
  take entries through a consumer group, run them and publish with the pipe `SET`, `DEL`, `XACK`,
  `PUBLISH`; a sweep reclaims the entries of dead workers; waiting requests are woken by a bell.
  `Cluster` is a transition system whose steps are single broker commands and single client decisions.
  Clients crash at any point, connections break after any prefix of a pipe, and the rest of a broken
  pipe may still reach the broker later. `ClusterRuns`, `ClusterVisibility`, `ClusterKnown`,
  `ClusterSubmission`, `ClusterLookup`, `ClusterResubmission`, `ClusterMarkers`, `ClusterRecovery` and
  `ClusterWork` prove theorems about its runs, `ClusterRaces` shows runs in which a promise is not kept,
  and `Bell` puts a gateway's listener, registry and waiters on top of it. `Publisher`, `Sweep` and
  `ResultBus` model the sequential code as methods, and tie it to the protocol; `Channels` holds the
  registry operations that the class in `ResultBus` and the machine in `Bell` share.
* **Child supervision.** `Reaper` routes exit statuses into slots, `Supervisor` polls for one under a
  wall deadline and classifies it, and feeds and drains the pipes.
* **Evaluation.** `Verdict` judges one test, `Scheduling` is the concurrency window in which the tests of
  a job complete out of order, `Pipeline` evaluates the job, `Stopping` says what a job that stops early
  can report, and `Gating` how wide the window is behind the memory admission that the tests share with
  other jobs.
* **Admission.** `Admission` hands out a memory budget by a fair semaphore, `Pool` bounds a queue by
  counters that several threads update, and `Handlers` validates submissions and bounds the wait.

State machines have a predicate `Enabled`, a function `Do` and a predicate `Run` over sequences of
states and events; a theorem about every run is a lemma about all such sequences. Code that updates
objects in place is a class whose methods are specified by functions on an abstract view, and the
theorems are about those functions.

## Assumptions

* The consumer group is created at `$`, so entries appended before that are nobody's job
  (`src/queue/redis.rs:51-58`); `born` is the length of the stream at that time.
* The broker keeps its state and executes the commands of one connection in order. Trimming by
  `MAXLEN ~` is modelled by a `floor` that may rise at any time; a trimmed entry can still be lost, and
  theorems about entries are about those at or above the floor.
* Job ids are not empty. A gateway generates one if the client sent none.
* Recovery needs one live worker whose steps are not disturbed; it starts from any reachable state.
* The kernel reports each death once, to the reaper, which is the only caller of `wait4`.
* The tests of a job that `buffer_unordered` takes up ask the semaphore for their units in order, all for
  the same amount, and a test's permit is returned when it is yielded. The budget is below 2^32 units.
* Clocks are monotonic and timers fire; the delays of timers and replies are parameters.
* The clock, the network's behaviour, rusage, the cgroup's numbers, and what pipes and runs return are
  inputs, universally quantified.

## Where the code and its documentation disagree

The model follows the code.

* The comment on `WaiterGuard` says that the map never leaks entries (`src/api/result_bus.rs:55-56`).
  `wait_for` binds receiver and guard in one pattern (line 204), the guard is dropped first and always
  still sees the receiver, so entries are never removed (`Bell.RegisteredIff`).
* Comments and `docs/HORIZONTAL_SCALING.md:120` speak of about 20 s of retries; the pauses between the
  twelve attempts add up to 13 s (`Publisher.MaximalBackoff`).
* `enqueue` rolls its marker back "so a retry isn't rejected as a duplicate". When it returns RedisDown
  that works exactly unless the reply to an executed `SET NX` was lost or the rollback was not executed
  (`ResultBus.RedisDownLeavesMarkerIff`), and commands of a broken connection may undo it later: a
  `SET NX` that takes effect without an answer leaves its marker until it expires, an answered one
  until the `DEL` of a rollback or publisher (`ClusterMarkers.MarkerIsLeftIff`). A marker without a job
  blocks the id until it expires (`ClusterMarkers.OrphanedMarkerBlocks`).
* A job is meant to be findable from the moment its enqueue returns Queued. It stays so under all faults,
  until a key expires or the id is submitted again, exactly if the state at that moment is safe: no
  claim of an earlier submission still has its `DEL` to come, and unless a result is stored, no report,
  re-ack, append or rollback is left that relies on one (`ClusterKnown.ResultOrMarkerIff`). A first
  submission always leads there (`ClusterSubmission.FirstSubmissionIsQuiet`, `QuietIsSafe`); a left-over
  re-ack can prevent it (`ClusterRaces.LateReackLosesJob`).
* A duplicate enqueue is meant to attach to the run in flight, but it deletes the stored result first. An
  unfinished job can be lost for good in this way, at any point, and by nothing else
  (`ClusterResubmission.LostIffResubmitted`, `ClusterRaces.SecondEnqueueLosesResult`); a finished one is
  started again (`ClusterResubmission.ResubmissionRestarts`).
* `docs/HORIZONTAL_SCALING.md:36` promises zero duplicate execution. A slow live job is run twice without
  any fault (`ClusterRaces.JobRunsTwice`); an entry is run again exactly at an inspection whose `GET` is
  unanswered or finds no result (`ClusterRuns.RunsAgainIff`), and re-runs are harmless
  (`ClusterRuns.RerunsAreIdempotent`).
* `README.md:113` says that combined memory limits never exceed the budget; that holds exactly if no
  single execution may ask for more than the budget (`Admission.BudgetIsBoundIff`).
* "Strictly deterministic" order of results (`src/orchestrator/pipeline.rs:197`) does not make a stopped
  job's verdict deterministic: a failing test's verdict can be reported exactly if fewer failing tests
  come before it than can run at once, which is the smaller of the concurrency window and the number of
  tests whose memory fits in the budget (`Gating.PossibleVerdicts`).
* The reaper is said never to race a supervisor (`src/sandbox/reaper.rs:73-75`). `wait4` frees the pid
  before its slot is looked up, so a child that gets the pid and is registered in between receives the
  exit of the orphan before it (`Reaper.OrphanReachesNewChild`). Delivery is exactly once if no pid is
  registered at such a time, or while an older handle for it lives (`Reaper.SlotHoldsOwnExit`).

## Model

| member | source | states |
|---|---|---|
| Cluster.StepKeepsInv | src/queue/redis.rs:255-359 | every broker command, client decision, crash and broken connection keeps the bookkeeping of stream, pending list, results and pipes consistent |
| ClusterRuns.NoJobIsLost | src/queue/redis.rs:140-199 | at every point of every run an untrimmed entry is in exactly one of undelivered, pending, acked; it was acked by an XACK after a result for its id was stored, or it never parsed |
| ClusterRuns.ResultsComeFromSubmittedRuns | src/queue/redis.rs:268-283 | a stored result has its key's id and is the outcome of a run of a request submitted under that id before |
| ClusterRuns.RerunsAreIdempotent | src/queue/redis.rs:398-406 | if all submissions of an id carry one request, every result ever read is an outcome of running that request, however often it was re-run |
| ClusterRuns.ClaimsExclude | src/api/result_bus.rs:151-171 | between two winning claims of one id something cleared the marker |
| ClusterRuns.QueuedWasClaimed | src/api/result_bus.rs:169-187 | an enqueue that returned Queued won its claim and appended its job afterwards |
| ClusterRuns.QueuedEnqueuesExclude | src/api/result_bus.rs:139-197 | if two enqueues of one id return Queued, at whatever times, then a publish, re-ack, rollback or expiry cleared the marker between their claims |
| ClusterRuns.ClaimInBetweenLoses | src/api/result_bus.rs:151-171 | an enqueue that claims between a winning claim and the next clearing of the marker answers Duplicate, or RedisDown if its reply is lost, never comes to append or to Queued, and has deleted the id's result |
| ClusterRuns.RunsAgainIff | src/queue/redis.rs:504-534 | over whole runs, an entry is run again exactly when the sweep inspects it and its GET is unanswered or finds no result |
| ClusterVisibility.SafeAlong | src/queue/redis.rs:312-320 | from a safe state, in which result or marker is there and no left-over task can delete it unduly, result or marker stay under all faults until expiry or a new submission |
| ClusterKnown.StaysKnownIff | src/queue/redis.rs:310-321 | a job whose entry is still to be delivered keeps result or marker in all futures without expiry and resubmission exactly if its state is safe |
| ClusterKnown.ResultOrMarkerIff | src/api/result_bus.rs:169-187 | result key or marker exists after every command from the moment its enqueue returned Queued, under all faults, exactly if that moment's state is safe; earlier submissions, results and expiries are arbitrary |
| ClusterSubmission.QuietIsSafe | src/api/result_bus.rs:139-187 | if nothing about an id was left over when it was submitted, the state in which that enqueue returned Queued is safe |
| ClusterSubmission.FirstSubmissionIsQuiet | src/api/result_bus.rs:136-139 | nothing is left over when an id is submitted for the first time |
| ClusterKnown.AckedIsVisible | src/queue/redis.rs:310-321 | from the moment the entry of a job that was safe when queued is acked, its result is stored, and its marker gone if no older claim was left over |
| ClusterLookup.NotFoundIff | src/api/handlers.rs:334-340 | having found no result for a job in a safe state, GET /result answers 404 exactly if the job's marker is deleted between its two reads and not set again, and then its result is stored between them |
| ClusterResubmission.ResubmissionLoses | src/api/result_bus.rs:151-168 | from every reachable state of an unfinished job with its marker, faultless steps with one more submission of its id lose it for good: the entry acked, neither key there, the enqueue answered Duplicate |
| ClusterResubmission.LostIffResubmitted | src/api/result_bus.rs:136-171 | an unfinished job in a safe state can be lost in a future without expiry exactly if its id may be submitted again |
| ClusterResubmission.ResubmissionRestarts | src/api/result_bus.rs:151-187 | one more submission of a job without marker deletes its result, and then queues it like a new one |
| ClusterSubmission.UnknownOnlyWhileClaiming | src/api/result_bus.rs:151-168 | if nothing was left over at a submission of a known id, the id is unknown at most between the DEL and the SET NX of that submission, or after it was refused |
| ClusterMarkers.MarkerIsLeftIff | src/api/result_bus.rs:151-195 | if nothing about an id was left over at its last submission, that enqueue's marker is there, at any later time, exactly if its SET NX took effect without an answer, and then nothing ever clears it, or with one and no DEL of a rollback or publish followed |
| ClusterMarkers.OrphanedMarkerBlocks | src/api/result_bus.rs:169-171 | a marker without unfinished entry, run, report or append lets no enqueue of its id return Queued and no result be stored until it expires |
| ClusterRaces.NotFoundHappens | src/api/handlers.rs:334-340 | a run without any fault in which a healthy queued job is answered 404 |
| ClusterRaces.JobRunsTwice | src/queue/redis.rs:398-406 | a run without any fault in which two workers run one job at the same time |
| ClusterRaces.SecondEnqueueLosesResult | src/api/result_bus.rs:151-168 | a run without any fault in which a duplicate enqueue leaves an acked job with neither result nor marker |
| ClusterRaces.LateReackLosesJob | src/queue/redis.rs:513-516 | a run without any fault in which a left-over re-ack makes a job unknown that was submitted again after it was finished, and not a third time |
| ClusterRaces.LostReplyOrphansMarker | src/api/result_bus.rs:151-167 | losing the reply to the claiming pipe returns RedisDown and leaves a marker without a job |
| ClusterRaces.LateClaimOrphansMarker | src/api/result_bus.rs:151-167 | so does a claiming pipe that reaches the broker after RedisDown was returned |
| ClusterRecovery.FinishOne | src/queue/redis.rs:478-536 | one pending entry is finished by at most seven faultless steps of the sweep: acked, with its result stored and its marker gone, or it never parsed, or it was trimmed |
| ClusterRecovery.EveryJobRecovers | src/queue/redis.rs:407-543 | from every reachable state a bounded faultless schedule of one worker gets every untrimmed entry acked, and every job that was not acked before has its result stored and its marker gone |
| ClusterWork.EveryWayRecovers | src/queue/redis.rs:407-543 | from every reachable state, every faultless schedule of a worker that claims only entries it is not working on, however it interleaves its steps, has at most eight steps per undelivered entry and seven per pending one, and where it has none left all these jobs are finished in the sense above |
| Bell.ReapIffNoReceiver | src/api/result_bus.rs:62-72 | a guard removes its id exactly if no receiver of its channel is left |
| Bell.BehaviorIsWired | src/api/result_bus.rs:99-111 | in every behaviour every live receiver listens to the channel registered for its id, and each channel counts exactly its live receivers |
| Bell.GuardKeepsHub | src/api/result_bus.rs:204 | a guard that is dropped before its receiver changes nothing |
| Bell.RegistryNeverShrinks | src/api/result_bus.rs:204 | no registration is ever removed or replaced, so no live receiver is detached |
| Bell.RegisteredIff | src/api/result_bus.rs:55-72 | an id is in the registry exactly if a request ever waited for it |
| Bell.RegistryLeaks | src/api/result_bus.rs:55-72 | ... so an entry stays although nobody waits any more |
| Bell.WaitsIff | src/api/result_bus.rs:202-234 | in every behaviour a wait is over exactly if the waiter's last step was an answered GET made while its result was stored, and it is in the select exactly if that step was any other GET |
| Bell.BlamedIff | src/api/result_bus.rs:253-284 | a fault is on record exactly if, since the waiter last looked, a bell of its id was lost, or its own last GET failed |
| Bell.BacklogIs | src/api/result_bus.rs:99-111 | a waiter begins with nothing unread, each send on its channel adds one, and receiving leaves the newest if several were unread |
| Bell.ResultsAreAnnounced | src/queue/redis.rs:287-320 | a result appears only together with an owed PUBLISH for its id |
| Bell.DebtStays | src/queue/redis.rs:364-393 | an owed PUBLISH stays owed until it is executed or its client vanishes |
| Bell.BehaviorWakes | src/api/result_bus.rs:202-234 | no lost wakeup: a waiter that is in the select while its result is stored has an unread token, or its bell is with the listener, queued or owed, or a dropped bell or failed GET is on record |
| Bell.BellArrives | src/api/result_bus.rs:202-284 | from any point of any behaviour, a parked waiter with a stored result and no fault on record has its token after at most 2n + 7 faultless steps of one publisher and the listener, n being the bells queued, and is served by receiving it and one answered GET |
| Publisher.MaximalBackoff | src/queue/redis.rs:370-391 | all pauses of twelve attempts add up to 13,000 ms |
| Publisher.BackoffIs | src/queue/redis.rs:380-391 | how long the first n pauses take, for every n |
| Publisher.Connection.RunPipeWithRetry | src/queue/redis.rs:364-394 | the pipe is sent until an attempt is answered, at most twelve times, with at most 13 s of pauses, and the broker is what that replay makes it |
| Publisher.ReplayIsTrace | src/queue/redis.rs:364-393 | that replay is the prefixes its attempts executed, one after the other |
| Publisher.ForeignIsInvisible | src/queue/redis.rs:310-321 | commands about other ids and entries neither change a job's keys and entry nor depend on them |
| Publisher.PrefixView | src/queue/redis.rs:312-320 | what result, marker and entry are after each prefix of the publish and re-ack pipes |
| Publisher.RetriesAreAbsorbed | src/queue/redis.rs:364-393 | any failed attempts, each a prefix, then a complete one, with foreign commands in between, leave the job as one complete attempt |
| Publisher.AnsweredReplayIsComplete | src/queue/redis.rs:376-378 | a successful retry loop leaves the job as one clean pipe |
| Sweep.SweepBatch | src/queue/redis.rs:478-536 | the loop over a reclaimed batch computes the fold of the per-entry decision |
| Sweep.BatchDrains | src/queue/redis.rs:490-516 | if the pipes are answered in the end, only entries that are re-run stay on the pending list |
| Sweep.BatchReruns | src/queue/redis.rs:503-534 | exactly the entries that parse and whose GET saw no result are re-run, in order, and all that parse are counted as reclaimed |
| Sweep.BatchIsProtocol | src/queue/redis.rs:441-536 | a reclaimed batch, undisturbed, is a run of the protocol's sweep tasks that leaves the same broker, and of whose tasks exactly those of the re-run entries go on to run a job |
| ResultBus.Enqueue | src/api/result_bus.rs:139-197 | enqueue returns the outcome and leaves the broker given by the fates of its three requests |
| ResultBus.EnqueueOutcomes | src/api/result_bus.rs:139-197 | from broker and fates alone: Queued exactly if claim and XADD are answered and the id is unmarked, Duplicate exactly if the claim is answered and the id is marked, RedisDown otherwise; and exactly what is left of older result, marker and stream |
| ResultBus.RedisDownLeavesMarkerIff | src/api/result_bus.rs:166-195 | at the moment enqueue returns RedisDown its marker is set exactly if the reply to an executed SET NX was lost or the rollback was not executed; later commands are `ClusterMarkers.MarkerIsLeftIff`'s |
| ResultBus.EnqueueIsProtocol | src/api/result_bus.rs:139-197 | the sequential enqueue is a run of the protocol's enqueue task with the same broker and outcome, without a lost reply if claim and XADD are answered |
| ResultBus.Receiver.Recv | src/api/result_bus.rs:217-218 | moves the receiver as the machine in `Bell` does: it reports a lag exactly if several sends were unread, and then leaves the newest unread, otherwise none |
| ResultBus.Registry.Register | src/api/result_bus.rs:99-111 | subscribes to the id's channel, a new one if absent, with nothing unread, as the machine does |
| ResultBus.Registry.DropGuard | src/api/result_bus.rs:62-72 | removes the id if its channel has no receiver, as the machine does |
| ResultBus.Registry.Ring | src/api/result_bus.rs:271-273 | a send on a cloned sender, as the machine does, whatever happened to the entry |
| ResultBus.Registry.RouteBell | src/api/result_bus.rs:264-274 | after a bell was routed every live receiver of its id has something unread, and no other channel changed |
| ResultBus.Registry.Leave | src/api/result_bus.rs:204 | leaving wait_for keeps every entry and takes one receiver away |
| ResultBus.PollUntil | src/api/result_bus.rs:237-248 | continues the GETs of a wait_for, the first at once and each other after a sleep, until one yields a result, or one without result is followed by a clock reading past the deadline |
| ResultBus.WaitFor | src/api/result_bus.rs:202-234 | returns what its last GET yields, the first result of all; each GET is made when the select before it ends, begun before the deadline and limited to two seconds and the deadline, or at once when the channel was closed; gives up only after a GET without result and a clock reading past the deadline |
| ResultBus.ResultIsReturnedSoon | src/api/result_bus.rs:202-248 | whatever the bells do, a result visible before the deadline is returned, and by a GET made within two seconds and the delays, unless the first GET saw it |
| Reaper.Reaper.RegisterChild | src/sandbox/reaper.rs:43-50 | maps the pid to a fresh empty slot |
| Reaper.Reaper.TryTake | src/sandbox/reaper.rs:59-61 | yields and empties the handle's slot |
| Reaper.Reaper.DropChild | src/sandbox/reaper.rs:64-71 | unregisters the handle's pid |
| Reaper.Reaper.ReapAll | src/sandbox/reaper.rs:77-95 | afterwards a registered pid's slot holds the last exit collected under it, and every other slot and the registry are unchanged |
| Reaper.BatchIsRun | src/sandbox/reaper.rs:77-95 | ... which is what a run of wait4, lookup and store over the same exits in the same order leaves |
| Reaper.SlotHoldsOwnExit | src/sandbox/reaper.rs:43-95 | exactly-once delivery, over all interleavings of wait4, lookup, store, register, take and drop: if no pid is registered while an older handle for it lives or an exit collected under it is to be looked up, a live handle's slot holds exactly the newest exit collected under its pid since registration, stored and not taken |
| Reaper.OrphansChangeNothing | src/sandbox/reaper.rs:81-94 | under that condition the exit of a pid without live handle changes nothing, whatever happens between wait4 and the lookup |
| Reaper.OrphanReachesNewChild | src/sandbox/reaper.rs:81-93 | a run in which a pid is registered between wait4 and the lookup, and the new child gets the orphan's exit |
| Reaper.RegistrationLastsIff | src/sandbox/reaper.rs:64-71 | with reissued pids a registration lasts exactly until any handle with that pid is dropped |
| Reaper.ReissueLosesExit | src/sandbox/reaper.rs:64-71 | a run in which a reissued pid loses the second child's exit |
| Supervisor.StatusWordRoundTrip | src/sandbox/supervisor.rs:146-162 | the status macros invert the kernel's encoding of exits and signals, and no word is both |
| Supervisor.Supervise | src/sandbox/supervisor.rs:56-95 | ends within wall limit, grace second and two polls whatever is delivered, kills exactly once, at the first poll that sees the wall limit passed or the exit delivered, uses the first delivered exit and makes one up only after the full grace |
| Supervisor.ReadPipeOutput | src/sandbox/supervisor.rs:184-225 | captures exactly the first min(total, cap) delivered bytes for every chunking and every interruption |
| Supervisor.DeliveredIsData | src/sandbox/supervisor.rs:195-210 | what is delivered is all data before the first end or error; interrupted reads end nothing |
| Supervisor.WriteAll | src/sandbox/mod.rs:225-242 | writes what the counts of the successive writes allow |
| Supervisor.FedIs | src/sandbox/mod.rs:225-242 | ... which is what the writes before the first failing one take, and at most the input |
| Supervisor.InputIsCompleteIff | src/sandbox/mod.rs:225-242 | the child gets its whole input exactly if enough writes succeed before the first that does not |
| Verdict.TrimIsCore | src/orchestrator/pipeline.rs:262-266 | trimming cuts blanks, and only blanks, off both ends |
| Verdict.EqualUpToBlanks | src/orchestrator/pipeline.rs:262-266 | trimmed outputs are equal exactly if they are one core within blanks |
| Verdict.AcceptedIff | src/orchestrator/pipeline.rs:155-180 | end to end, exactly when a test is Accepted: status word, OOM kills, peak memory, output below the cap, and output equal up to surrounding whitespace |
| Verdict.WrongAnswerIff | src/orchestrator/pipeline.rs:155-180 | exactly when it is WrongAnswer: all that Accepted asks except the output |
| Verdict.MemoryLimitIff | src/orchestrator/pipeline.rs:155-180 | exactly when it is MemoryLimitExceeded, by OOM kills, peak memory, status word and output size |
| Verdict.TimeLimitIff | src/orchestrator/pipeline.rs:155-180 | exactly when it is TimeLimitExceeded, by SIGKILL, its time, the CPU time and the memory |
| Verdict.RuntimeErrorIff | src/orchestrator/pipeline.rs:155-180 | exactly when it is RuntimeError: a crash or a flooded output within memory and CPU time |
| Verdict.ExecutedReports | src/sandbox/supervisor.rs:115-143 | the numbers and output of a test's result, by the raw rusage, cgroup numbers and reads |
| Verdict.JudgeTest | src/sandbox/supervisor.rs:56-95 | one test from supervision to verdict: the verdict, as characterised above, of the first delivered exit; if none is ever delivered, TimeLimitExceeded, or MemoryLimitExceeded after an OOM kill |
| Scheduling.ScheduleInv | src/orchestrator/pipeline.rs:146 | started tests are a prefix, completions are distinct, and no test is started a window ahead of the completed ones |
| Scheduling.CompleteSchedule | src/orchestrator/pipeline.rs:146-151 | a schedule that ran to its end completed every test once |
| Scheduling.OrderHappensIff | src/orchestrator/pipeline.rs:112-146 | exactly which orders of completion a window allows: those in which no test is a window or more places early |
| Pipeline.RunTests | src/orchestrator/pipeline.rs:146-220 | the loop over completions, the sort and the fold compute the evaluation of that order |
| Pipeline.ResultReportsRuns | src/orchestrator/pipeline.rs:184-220 | that evaluation, for every order, with or without stop-on-fail: each listed test has the verdict, CPU time, memory and output of its run, in increasing indices; the total is the base plus their CPU times, the peak the largest memory, the verdict that of the first listed failure |
| Pipeline.SortSorts | src/orchestrator/pipeline.rs:197-198 | sorting orders strictly by index and keeps the entries |
| Pipeline.JudgeComputes | src/orchestrator/pipeline.rs:200-220 | CPU sum, peak memory, listed tests and the first failure's verdict of the sorted entries |
| Pipeline.ScheduleIndependence | src/orchestrator/pipeline.rs:146-220 | without stop-on-fail and sandbox error, every order gives the result computed in test order: all tests listed with what their runs returned, and the base plus the sum of all runs' CPU times |
| Pipeline.EveryScheduleAgrees | src/orchestrator/pipeline.rs:146-220 | ... and so does every complete schedule of every window |
| Pipeline.SandboxErrorIff | src/orchestrator/pipeline.rs:152 | without stop-on-fail a job ends in a sandbox error exactly if the sandbox failed for some test, and reports such an error |
| Pipeline.StopOnFirstFail | src/orchestrator/pipeline.rs:191-220 | with stop-on-fail: strictly increasing indices, at most one failure, whose verdict is the job's; Accepted exactly if all ran and passed |
| Pipeline.StopsThere | src/orchestrator/pipeline.rs:151-195 | with stop-on-fail, the first completion that did not pass decides: a sandbox error exactly if its sandbox failed, and otherwise exactly the tests completed up to it are listed |
| Pipeline.Execute | src/orchestrator/pipeline.rs:40-87 | sandbox failure, compile failure and success of the compile phase, and what the tests start from |
| Stopping.VerdictsOfWindow | src/orchestrator/pipeline.rs:146-195 | the verdicts that schedules of a window give a stopped job are exactly those of the failing tests with fewer failing tests before them than the window is wide, or Accepted if none fails |
| Gating.RunIsSchedule | src/sandbox/mod.rs:71-74 | in every run of a job's tests and other jobs behind the semaphore, the admitted tests follow a schedule of the width that window and budget allow |
| Gating.GateNarrowsWindow | src/orchestrator/pipeline.rs:112-146 | the orders of completion behind the semaphore are exactly those of a window of that width |
| Gating.OrdersIff | src/orchestrator/pipeline.rs:112-146 | ... so a job can see exactly the orders in which no test is as many places early as tests can run at once |
| Gating.EveryOrderIff | src/sandbox/admission.rs:76-79 | every order happens exactly if all tests fit in the window and in the budget at once |
| Gating.CutShortIsPossible | src/orchestrator/pipeline.rs:191-195 | stopping at the first failing completion gives no verdict that a run to the end does not |
| Gating.PossibleVerdicts | src/orchestrator/pipeline.rs:112-195 | a stopped job's possible verdicts are exactly those of the failing tests with fewer failing tests before them than can run at once, or Accepted if none fails |
| Gating.WideVerdicts | src/orchestrator/pipeline.rs:112-195 | if all tests can run at once every failing test's verdict is possible |
| Gating.NarrowVerdict | src/orchestrator/pipeline.rs:112-195 | with one core, or a memory limit of more than half of the budget, only the first failing test's is |
| Admission.UnitsRoundUpAndClamp | src/sandbox/admission.rs:76-79 | the units are the ceiling, at least one, at most the budget, if nothing wraps or is truncated |
| Admission.TotalUnits | src/sandbox/admission.rs:58-64 | the budget in units is its floor, at least one |
| Admission.WrapBreaksAccounting | src/sandbox/admission.rs:77 | for a u64 request the accounting holds exactly if the rounding addition does not wrap |
| Admission.RunSettles | src/sandbox/mod.rs:71-74 | in every run held and free units add up to the total and nobody who fits waits at the head |
| Admission.WaitersHaveHolders | src/sandbox/mod.rs:65-74 | no deadlock: while anybody waits, somebody holds and can complete |
| Admission.WaitIsBounded | src/sandbox/mod.rs:71-74 | no starvation: a waiter with r executions ahead of it is admitted or cancelled by the time r executions completed |
| Admission.HeldMemoryIsBounded | src/sandbox/admission.rs:58-79 | admitted memory is at most the budget, or one execution holds every unit and runs alone |
| Admission.BudgetIsBoundIff | src/sandbox/admission.rs:58-90 | the configured budget bounds admitted memory exactly if no single request may exceed it |
| Pool.CountersAreConserved | src/orchestrator/pool.rs:99-146 | queued_jobs is channel plus submitters and workers in transit, busy_workers is the working ones; neither underflows, and busy is at most the number of workers |
| Pool.OneAnswerEach | src/orchestrator/pool.rs:67-146 | every submission is in exactly one place at any time and is answered at most once |
| Pool.ChannelIsFifo | src/orchestrator/pool.rs:101-127 | in every run workers receive the submissions in the order in which they were sent, none twice and none left out |
| Pool.QueueOvershootIsBounded | src/orchestrator/pool.rs:73-99 | with T threads the counter exceeds the limit by at most T - 1 |
| Pool.QueueOvershootHappens | src/orchestrator/pool.rs:73-99 | ... and for every limit and T some run attains that |
| Pool.ConsumerIsNeverRejectedIff | src/queue/redis.rs:69-71 | with the Redis consumer as only caller, QUEUE_FULL is impossible exactly if 2n and 4 are at most the queue limit |
| Handlers.Validate | src/orchestrator/job.rs:50-101 | accepts exactly the submissions without violation and reports the first one |
| Handlers.ValidatedWait | src/api/handlers.rs:206-208 | for validated submissions nothing wraps, and the wait is between 600 s and 18,060 s |
| Handlers.MarkerOutlastsWait | src/api/handlers.rs:244-250 | the pending marker outlives the wait it belongs to, by a minute at most, for every u64 limit |

## Left out

- ClusterMarkers.MarkerIsLeftIff: is about submissions at which nothing about the id was left over; with left-overs a marker may be another submission's.
- ClusterWork.EveryWayRecovers: is about the order of a worker's steps; when it takes them (poll interval, idle threshold, cursor of XAUTOCLAIM, batches of 32) is not modelled.
- ResultBus.EnqueueIsProtocol: ties enqueue to the protocol when nothing else acts in between, as `Sweep.BatchIsProtocol` does a batch; other interleavings are covered in the protocol only.
- Pool.ConsumerIsNeverRejectedIff: takes the permits to be returned after the pool answered, as the consumer does after publishing.
- Admission.WaitIsBounded: counts completions; how long an execution runs is bounded by its supervision.
- Handlers.MarkerOutlastsWait: measures the gateway's wait and the broker's expiry by clocks of the same speed.
- Namespaces, mounts, seccomp, privileges and cgroup files: kernel effects outside this code; their numbers are inputs.
- Language runners, command lines and language tables: constant data.
- HTTP routing, authentication, WebSocket frames, progress events, metrics, cluster statistics and heartbeats: plumbing and display.
- JSON, UUIDs and Redis reply decoding: an entry either parses or not, and a stored result parses.
- The environment parsing of limits (`parse_bytes` and the defaults): the limits are arbitrary numbers here, as is the per-job memory clamp in `submit`.
- The drain timeout of the output pipes, and failures of pipe, cgroup and fork set-up: `Verdict` is about completed drains, and set-up failures are sandbox errors.
- The result's expiry time: a result key may expire at any time.
- Several gateways: `Bell` models one, and treats the others as part of the cluster.
- The local fallback of `submit` when the enqueue fails: it runs a job outside the cluster; a lost reply to the XADD can then run it twice.
