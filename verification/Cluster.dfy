/**
 The cluster job protocol of src/queue/redis.rs and src/api/result_bus.rs as a transition system.
 Every step is one broker command or one client decision; clients crash, connections break after any
 prefix of a pipe, and the unsent rest of a broken pipe may still reach the broker later.
 */
module Cluster {
  import opened Prelude
  import opened Redis

  datatype EnqueueOutcome = Queued | Duplicate | RedisDown

  /** A client activity. Swept is an entry XAUTOCLAIM returned and the sweep has not inspected yet.
      Flight is a pipe of which the broker executed the first `done` commands, and whose client waits
      for the reply; Stray is one whose client gave up. Answered is an enqueue that returned. */
  datatype Task =
    | Running(msg: nat, request: Request)
    | Swept(msg: nat)
    | Flight(pipe: Pipe, done: nat)
    | Stray(pipe: Pipe, done: nat)
    | Answered(request: Request, outcome: EnqueueOutcome)

  datatype State = State(
    broker: Broker,
    tasks: map<nat, Task>,
    ran: set<(Request, JobResult)>  // history: outcomes of runs, the RuntimeError fallback included
  )

  datatype Event =
    | ExpireResult(id: JobId)
    | ExpireMarker(id: JobId)
    | Trim(upTo: nat)                         // MAXLEN ~
    | AddGarbled                              // some producer appends an entry without a parsable job
    | Deliver(task: nat)                      // XREADGROUP hands out the next entry
    | Autoclaim(task: nat, msg: nat)          // XAUTOCLAIM hands out an entry of the pending list
    | Inspect(task: nat, heard: bool)         // the sweep parses the entry and GETs its result
    | Finish(task: nat, result: JobResult)    // pool.submit returned
    | Exec(task: nat, heard: bool)            // the broker executes a pipe's next command
    | Break(task: nat, stray: Option<nat>)    // the client sees a connection error
    | Vanish(task: nat)                       // done, gave up, or crashed
    | Submit(task: nat, request: Request)     // a gateway calls enqueue

  predicate InPipe(task: Task) {
    (task.Flight? || task.Stray?) && task.done < |Commands(task.pipe)|
  }

  function Head(task: Task): Command
    requires InPipe(task)
  {
    Commands(task.pipe)[task.done]
  }

  predicate IsInPipe(s: State, t: nat) {
    t in s.tasks && InPipe(s.tasks[t])
  }

  /** The entry XREADGROUP hands out next: trimmed ones are skipped. */
  function NextEntry(b: Broker): nat {
    Max(b.delivered, b.floor)
  }

  predicate Enabled(s: State, e: Event) {
    match e
    case ExpireResult(_) => true
    case ExpireMarker(_) => true
    case Trim(upTo) => s.broker.floor <= upTo <= |s.broker.stream|
    case AddGarbled => true
    case Deliver(t) => t !in s.tasks && NextEntry(s.broker) < |s.broker.stream|
    case Autoclaim(t, msg) => t !in s.tasks && msg in s.broker.pel
    case Inspect(t, _) => t in s.tasks && s.tasks[t].Swept? && s.tasks[t].msg < |s.broker.stream|
    case Finish(t, result) =>
      t in s.tasks && s.tasks[t].Running? && result.jobId == s.tasks[t].request.jobId
    case Exec(t, _) => IsInPipe(s, t)
    case Break(t, stray) =>
      t in s.tasks && s.tasks[t].Flight? && (stray.Some? ==> stray.value !in s.tasks)
    case Vanish(t) => t in s.tasks
    case Submit(t, _) => t !in s.tasks
  }

  /** A SET NX that finds no marker. */
  predicate Wins(b: Broker, cmd: Command) {
    cmd.SetMarkerNX? && cmd.id !in b.markers
  }

  /** What the client does with the reply to the command its pipe just executed; `claimed` says that
      a SET NX found no marker. Gateways act on single replies, workers on the whole pipe's. */
  function AfterExec(task: Task, claimed: bool, heard: bool): Task
    requires InPipe(task)
  {
    match task
    case Stray(pipe, done) => Stray(pipe, done + 1)
    case Flight(Claim(request), done) =>
      if done == 0 then Flight(Claim(request), 1)
      else if !heard then Answered(request, RedisDown)
      else if claimed then Flight(Append(request), 0)
      else Answered(request, Duplicate)
    case Flight(Append(request), _) =>
      if heard then Answered(request, Queued) else Flight(Rollback(request), 0)
    case Flight(Rollback(request), _) => Answered(request, RedisDown)
    case Flight(pipe, done) => Flight(pipe, done + 1)
  }

  /** What the client of a broken connection does: run_pipe_with_retry starts the whole pipe again,
      the sweep ignores a failed discard, and enqueue rolls back only a failed XADD. */
  function AfterBreak(pipe: Pipe): Option<Task> {
    match pipe
    case Report(_, _, _) => Some(Flight(pipe, 0))
    case Reack(_, _) => Some(Flight(pipe, 0))
    case Discard(_) => None
    case Claim(request) => Some(Answered(request, RedisDown))
    case Append(request) => Some(Flight(Rollback(request), 0))
    case Rollback(request) => Some(Answered(request, RedisDown))
  }

  /** The sweep's decision about a reclaimed entry; an unanswered GET counts as "no result". */
  function AfterInspect(b: Broker, msg: nat, heard: bool): Task
    requires msg < |b.stream|
  {
    match b.stream[msg]
    case Garbled => Flight(Discard(msg), 0)
    case Job(request) =>
      if heard && request.jobId in b.results then Flight(Reack(msg, request.jobId), 0)
      else Running(msg, request)
  }

  /** The broker after a step. */
  function NextBroker(s: State, e: Event): Broker
    requires Enabled(s, e)
  {
    var b := s.broker;
    match e
    case ExpireResult(id) => b.(results := b.results - {id})
    case ExpireMarker(id) => b.(markers := b.markers - {id})
    case Trim(upTo) => b.(floor := upTo)
    case AddGarbled => Apply(b, XAdd(Garbled))
    case Deliver(_) => b.(delivered := NextEntry(b) + 1, pel := b.pel + {NextEntry(b)})
    case Autoclaim(_, msg) => if msg < b.floor then b.(pel := b.pel - {msg}) else b
    case Exec(t, _) => Apply(b, Head(s.tasks[t]))
    case _ => b
  }

  /** The clients after a step. A garbled entry that XREADGROUP delivers starts no task. */
  function NextTasks(s: State, e: Event): map<nat, Task>
    requires Enabled(s, e)
  {
    var b, tasks := s.broker, s.tasks;
    match e
    case Deliver(t) =>
      var msg := NextEntry(b);
      if b.stream[msg].Job? then tasks[t := Running(msg, b.stream[msg].request)] else tasks
    case Autoclaim(t, msg) => if msg < b.floor then tasks else tasks[t := Swept(msg)]
    case Inspect(t, heard) => tasks[t := AfterInspect(b, tasks[t].msg, heard)]
    case Finish(t, result) => tasks[t := Flight(Report(tasks[t].msg, tasks[t].request, result), 0)]
    case Exec(t, heard) => tasks[t := AfterExec(tasks[t], Wins(b, Head(tasks[t])), heard)]
    case Break(t, stray) =>
      var Flight(pipe, done) := tasks[t];
      var rest := if stray.Some? then tasks[stray.value := Stray(pipe, done)] else tasks;
      var next := AfterBreak(pipe);
      if next.Some? then rest[t := next.value] else rest - {t}
    case Vanish(t) => tasks - {t}
    case Submit(t, request) => tasks[t := Flight(Claim(request), 0)]
    case _ => tasks
  }

  function Do(s: State, e: Event): State
    requires Enabled(s, e)
  {
    State(NextBroker(s, e), NextTasks(s, e),
          if e.Finish? then s.ran + {(s.tasks[e.task].request, e.result)} else s.ran)
  }

  /** The consumer group was just created: nothing was delivered, whatever the stream held before. */
  predicate Init(s: State) {
    && s.broker.results == map[] && s.broker.markers == {} && s.broker.stored == {}
    && s.broker.pel == {} && s.broker.acked == {}
    && s.broker.floor <= s.broker.born == s.broker.delivered == |s.broker.stream|
    && s.tasks == map[] && s.ran == {}
  }

  /** A run: states and the events between them. */
  ghost predicate Run(ss: seq<State>, es: seq<Event>) {
    && |ss| == |es| + 1
    && forall i | 0 <= i < |es| :: Enabled(ss[i], es[i]) && ss[i + 1] == Do(ss[i], es[i])
  }

  /** A run from `s` of which every event is allowed by `may`. */
  ghost predicate Path(may: (State, Event) -> bool, s: State, ss: seq<State>, es: seq<Event>) {
    Run(ss, es) && ss[0] == s && forall i | 0 <= i < |es| :: may(ss[i], es[i])
  }

  lemma Walk(may: (State, Event) -> bool, s: State, ss: seq<State>, es: seq<Event>, e: Event)
    returns (ss': seq<State>, es': seq<Event>)
    requires Path(may, s, ss, es) && Enabled(ss[|es|], e) && may(ss[|es|], e)
    ensures Path(may, s, ss', es')
    ensures ss' == ss + [Do(ss[|es|], e)] && es' == es + [e]
  {
    ss', es' := ss + [Do(ss[|es|], e)], es + [e];
  }

  /** No crash, no broken connection, no lost reply, no expiry, no trimming. */
  function Faultless(): (State, Event) -> bool {
    (s: State, e: Event) =>
      match e
      case Exec(_, heard) => heard
      case Inspect(_, heard) => heard
      case Deliver(_) => true
      case Autoclaim(_, _) => true
      case Finish(_, _) => true
      case Submit(_, _) => true
      case _ => false
  }

  // ----- the invariant -----

  predicate Undelivered(b: Broker, i: nat) {
    b.delivered <= i
  }

  /** An entry may be taken off the pending list once a result for its id was stored, or if it never
      held a job. */
  predicate Settled(b: Broker, i: nat)
    requires i < |b.stream|
  {
    b.stream[i].Garbled? || b.stream[i].request.jobId in b.stored
  }

  ghost predicate BrokerInv(b: Broker) {
    && b.born <= b.delivered <= |b.stream| && b.floor <= |b.stream|
    && b.pel !! b.acked
    && (forall i | i in b.pel :: b.born <= i < b.delivered)
    && (forall i | i in b.acked :: b.born <= i < b.delivered && Settled(b, i))
    && (forall i | b.born <= i < b.delivered && b.floor <= i :: i in b.pel || i in b.acked)
    && (forall id | id in b.results :: id in b.stored && b.results[id].jobId == id)
  }

  predicate Holds(b: Broker, msg: nat, request: Request) {
    b.born <= msg < b.delivered <= |b.stream| && b.stream[msg] == Job(request)
  }

  predicate PipeInv(s: State, pipe: Pipe, done: nat) {
    && done <= |Commands(pipe)|
    && match pipe
       case Report(msg, request, result) =>
         && Holds(s.broker, msg, request)
         && result.jobId == request.jobId
         && (request, result) in s.ran
         && (1 <= done ==> request.jobId in s.broker.stored)
       case Reack(msg, id) =>
         && msg < s.broker.delivered <= |s.broker.stream|
         && s.broker.stream[msg].Job? && s.broker.stream[msg].request.jobId == id
         && id in s.broker.stored
       case Discard(msg) => msg < |s.broker.stream| && s.broker.stream[msg].Garbled?
       case _ => true
  }

  predicate FromGateway(pipe: Pipe) {
    pipe.Claim? || pipe.Append? || pipe.Rollback?
  }

  predicate TaskInv(s: State, task: Task) {
    match task
    case Running(msg, request) => Holds(s.broker, msg, request)
    case Swept(msg) => s.broker.born <= msg < s.broker.delivered
    case Flight(pipe, done) => PipeInv(s, pipe, done) && (FromGateway(pipe) ==> done < |Commands(pipe)|)
    case Stray(pipe, done) => PipeInv(s, pipe, done)
    case Answered(_, _) => true
  }

  /** Every stored result was produced by a run of a request with its id. */
  ghost predicate ResultsInv(s: State) {
    forall id | id in s.broker.results ::
      exists request :: (request, s.broker.results[id]) in s.ran && request.jobId == id
  }

  ghost predicate RanInv(s: State) {
    forall pair | pair in s.ran :: pair.1.jobId == pair.0.jobId && Job(pair.0) in s.broker.stream
  }

  ghost predicate Inv(s: State) {
    && BrokerInv(s.broker)
    && (forall t | t in s.tasks :: TaskInv(s, s.tasks[t]))
    && ResultsInv(s)
    && RanInv(s)
  }

  /** What a step may change about the facts that task invariants rest on: they only grow. */
  predicate Grows(s: State, s': State) {
    && s.broker.born == s'.broker.born
    && s.broker.stream <= s'.broker.stream
    && s.broker.delivered <= s'.broker.delivered <= |s'.broker.stream|
    && s.broker.stored <= s'.broker.stored
    && s.ran <= s'.ran
  }

  lemma TaskInvGrows(s: State, s': State, task: Task)
    requires Grows(s, s') && TaskInv(s, task)
    requires s.broker.delivered <= |s.broker.stream|
    ensures TaskInv(s', task)
  {
  }

  lemma AckKeepsBroker(b: Broker, msg: nat)
    requires BrokerInv(b) && msg < |b.stream| && Settled(b, msg)
    ensures BrokerInv(Apply(b, XAck(msg)))
  {
  }

  lemma OtherCommandsKeepBroker(b: Broker, cmd: Command)
    requires BrokerInv(b) && !cmd.XAck? && (cmd.SetResult? ==> cmd.id == cmd.result.jobId)
    ensures BrokerInv(Apply(b, cmd))
  {
  }

  lemma ApplyKeepsBroker(s: State, t: nat)
    requires Inv(s) && IsInPipe(s, t)
    ensures BrokerInv(Apply(s.broker, Head(s.tasks[t])))
  {
    var cmd := Head(s.tasks[t]);
    assert TaskInv(s, s.tasks[t]);
    if cmd.XAck? {
      assert cmd.msg < |s.broker.stream| && Settled(s.broker, cmd.msg);
      AckKeepsBroker(s.broker, cmd.msg);
    } else {
      OtherCommandsKeepBroker(s.broker, cmd);
    }
  }

  lemma ExecKeepsResults(s: State, t: nat, heard: bool)
    requires Inv(s) && IsInPipe(s, t)
    ensures ResultsInv(Do(s, Exec(t, heard)))
  {
    var s' := Do(s, Exec(t, heard));
    var cmd := Head(s.tasks[t]);
    assert TaskInv(s, s.tasks[t]);
    forall id | id in s'.broker.results
      ensures exists request :: (request, s'.broker.results[id]) in s'.ran && request.jobId == id
    {
      if cmd.SetResult? && cmd.id == id {
        assert (s.tasks[t].pipe.request, s'.broker.results[id]) in s'.ran;
      } else {
        assert id in s.broker.results && s'.broker.results[id] == s.broker.results[id];
      }
    }
  }

  lemma ExecKeepsInv(s: State, t: nat, heard: bool)
    requires Inv(s) && IsInPipe(s, t)
    ensures Inv(Do(s, Exec(t, heard)))
  {
    var s' := Do(s, Exec(t, heard));
    ApplyKeepsBroker(s, t);
    ExecKeepsResults(s, t, heard);
    assert TaskInv(s, s.tasks[t]);
    assert Grows(s, s');
    forall u | u in s'.tasks ensures TaskInv(s', s'.tasks[u]) {
      if u != t {
        TaskInvGrows(s, s', s.tasks[u]);
      }
    }
  }

  lemma BreakKeepsTask(s: State, e: Event, u: nat)
    requires Inv(s) && Enabled(s, e) && e.Break? && u in Do(s, e).tasks
    ensures TaskInv(Do(s, e), Do(s, e).tasks[u])
  {
    assert TaskInv(s, s.tasks[e.task]);
    if u in s.tasks {
      TaskInvGrows(s, Do(s, e), s.tasks[u]);
    }
  }

  lemma OtherStepKeepsTask(s: State, e: Event, u: nat)
    requires Inv(s) && Enabled(s, e) && !e.Exec? && !e.Break? && u in Do(s, e).tasks
    ensures TaskInv(Do(s, e), Do(s, e).tasks[u])
  {
    if u in s.tasks {
      TaskInvGrows(s, Do(s, e), s.tasks[u]);
    }
  }

  lemma OtherStepsKeepInv(s: State, e: Event)
    requires Inv(s) && Enabled(s, e) && !e.Exec?
    ensures Inv(Do(s, e))
  {
    var s' := Do(s, e);
    assert Grows(s, s');
    forall u | u in s'.tasks ensures TaskInv(s', s'.tasks[u]) {
      if e.Break? {
        BreakKeepsTask(s, e, u);
      } else {
        OtherStepKeepsTask(s, e, u);
      }
    }
    forall id | id in s'.broker.results
      ensures exists request :: (request, s'.broker.results[id]) in s'.ran && request.jobId == id
    {
      var request :| (request, s.broker.results[id]) in s.ran && request.jobId == id;
      assert (request, s'.broker.results[id]) in s'.ran;
    }
  }

  lemma StepKeepsInv(s: State, e: Event)
    requires Inv(s) && Enabled(s, e)
    ensures Inv(Do(s, e))
  {
    if e.Exec? {
      ExecKeepsInv(s, e.task, e.heard);
    } else {
      OtherStepsKeepInv(s, e);
    }
  }

  lemma {:induction false} RunKeepsInv(ss: seq<State>, es: seq<Event>, k: nat)
    requires Run(ss, es) && Inv(ss[0]) && k < |ss|
    ensures Inv(ss[k])
  {
    if k > 0 {
      RunKeepsInv(ss, es, k - 1);
      StepKeepsInv(ss[k - 1], es[k - 1]);
    }
  }

  lemma InitInv(s: State)
    requires Init(s)
    ensures Inv(s)
  {
  }
}
