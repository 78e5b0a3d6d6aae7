/**
 Every way to recover. ClusterRecovery shows one schedule that finishes all jobs; here a worker may
 interleave its deliveries, claims, runs and pipes as it likes. As long as it claims no entry that it is
 already working on, it ends after a bounded number of steps, and where it can go no further all jobs
 are finished.
 */
module ClusterWork {
  import opened Prelude
  import opened Redis
  import opened Cluster
  import opened ClusterRuns
  import opened ClusterRecovery

  /** A task that the worker started after `from`; those of others stand still. */
  predicate Mine(from: State, s: State, t: nat) {
    t in s.tasks && t !in from.tasks
  }

  /** Where in a worker's pipe the XACK is. */
  function AckAt(pipe: Pipe): (k: nat)
    requires FromWorker(pipe)
    ensures k < |Commands(pipe)| && Commands(pipe)[k] == XAck(pipe.msg)
    ensures forall j | 0 <= j < |Commands(pipe)| :: Commands(pipe)[j].XAck? ==> j == k
  {
    match pipe
    case Report(_, _, _) => 2
    case Reack(_, _) => 1
    case Discard(_) => 0
  }

  /** The entry that a task still has to take off the pending list. */
  function Held(task: Task): Option<nat> {
    match task
    case Running(msg, _) => Some(msg)
    case Swept(msg) => Some(msg)
    case Flight(pipe, done) => if FromWorker(pipe) && done <= AckAt(pipe) then Some(pipe.msg) else None
    case _ => None
  }

  ghost predicate Taken(from: State, s: State, msg: nat) {
    exists t :: Mine(from, s, t) && Held(s.tasks[t]) == Some(msg)
  }

  /** A faultless step of the worker. */
  ghost predicate Diligent(judge: Judge, from: State, s: State, e: Event) {
    match e
    case Deliver(_) => true
    case Autoclaim(_, msg) => !Taken(from, s, msg)
    case Inspect(t, heard) => heard && t !in from.tasks
    case Finish(t, result) =>
      t !in from.tasks && t in s.tasks && s.tasks[t].Running? && result.report == judge(s.tasks[t].request)
    case Exec(t, heard) => heard && t !in from.tasks
    case _ => false
  }

  ghost predicate Work(judge: Judge, from: State, ss: seq<State>, es: seq<Event>) {
    && Run(ss, es) && ss[0] == from
    && forall i | 0 <= i < |es| :: Diligent(judge, from, ss[i], es[i])
  }

  // ----- what the worker keeps -----

  /** What a task of the worker has done so far still stands. */
  predicate Stands(b: Broker, task: Task) {
    && (Held(task).Some? ==> Held(task).value in b.pel && Held(task).value < |b.stream|)
    && match task
       case Running(msg, request) => b.stream[msg] == Job(request)
       case Swept(_) => true
       case Flight(Report(msg, request, result), done) =>
         && done <= 4 && msg < |b.stream| && b.stream[msg] == Job(request) && result.jobId == request.jobId
         && (1 <= done ==> request.jobId in b.results) && (2 <= done ==> request.jobId !in b.markers)
       case Flight(Reack(msg, id), done) =>
         && done <= 3 && msg < |b.stream| && b.stream[msg].Job? && b.stream[msg].request.jobId == id
         && id in b.results && (1 <= done ==> id !in b.markers)
       case Flight(Discard(msg), done) => done <= 1 && msg < |b.stream| && b.stream[msg].Garbled?
       case _ => false
  }

  ghost predicate Acknowledges(b: Broker, b': Broker) {
    forall i | i in b'.acked && i !in b.acked :: i < |b'.stream| && Done(b', i)
  }

  ghost predicate WorkInv(from: State, s: State) {
    && Advances(from.broker, s.broker) && Acknowledges(from.broker, s.broker)
    && (forall t | t in from.tasks :: t in s.tasks)
    && (forall t | Mine(from, s, t) :: Stands(s.broker, s.tasks[t]))
    && (forall t, u | Mine(from, s, t) && Mine(from, s, u) && Held(s.tasks[t]).Some? &&
                      Held(s.tasks[t]) == Held(s.tasks[u]) :: t == u)
  }

  lemma StandsOn(b: Broker, b': Broker, task: Task)
    requires Stands(b, task) && Advances(b, b') && (Held(task).Some? ==> Held(task).value in b'.pel)
    ensures Stands(b', task)
  {
  }

  /** A step that changes task t, and the pending list at most by what t held or holds now. */
  ghost predicate Changes(from: State, s: State, s': State, t: nat) {
    && t !in from.tasks && t in s'.tasks && s'.tasks - {t} == s.tasks - {t}
    && Advances(s.broker, s'.broker) && Acknowledges(s.broker, s'.broker)
    && (forall m | m in s.broker.pel && m !in s'.broker.pel :: t in s.tasks && Held(s.tasks[t]) == Some(m))
    && (forall m | m in s'.broker.pel && m !in s.broker.pel :: Held(s'.tasks[t]) == Some(m))
    && (t in s.tasks && Held(s.tasks[t]).Some? && Held(s.tasks[t]) != Held(s'.tasks[t]) ==>
          Held(s.tasks[t]).value !in s'.broker.pel)
    && Stands(s'.broker, s'.tasks[t])
    && (Held(s'.tasks[t]).Some? ==>
          (t in s.tasks && Held(s.tasks[t]) == Held(s'.tasks[t])) || !Taken(from, s, Held(s'.tasks[t]).value))
  }

  lemma SameBut(s: State, s': State, t: nat, u: nat)
    requires s'.tasks - {t} == s.tasks - {t} && u != t
    ensures u in s'.tasks <==> u in s.tasks
    ensures u in s.tasks ==> s'.tasks[u] == s.tasks[u]
  {
    assert u in s'.tasks - {t} <==> u in s.tasks - {t};
  }

  lemma AcknowledgesOn(b: Broker, b': Broker, b'': Broker)
    requires Acknowledges(b, b') && Acknowledges(b', b'') && Advances(b', b'')
    ensures Acknowledges(b, b'')
  {
  }

  lemma ChangeKeepsWork(from: State, s: State, s': State, t: nat)
    requires WorkInv(from, s) && Changes(from, s, s', t)
    ensures WorkInv(from, s')
  {
    AcknowledgesOn(from.broker, s.broker, s'.broker);
    forall u | u != t ensures Mine(from, s', u) <==> Mine(from, s, u)
                      ensures u in s.tasks ==> u in s'.tasks && s'.tasks[u] == s.tasks[u] {
      SameBut(s, s', t, u);
    }
    forall u | Mine(from, s', u) ensures Stands(s'.broker, s'.tasks[u]) {
      if u != t {
        StandsOn(s.broker, s'.broker, s.tasks[u]);
      }
    }
  }

  lemma DeliverChanges(from: State, s: State, t: nat)
    requires Inv(s) && WorkInv(from, s) && Enabled(s, Deliver(t)) && s.broker.stream[NextEntry(s.broker)].Job?
    ensures Changes(from, s, Do(s, Deliver(t)), t)
  {
    assert NextEntry(s.broker) !in s.broker.pel;
    assert !Taken(from, s, NextEntry(s.broker));
  }

  lemma ClaimChanges(from: State, s: State, t: nat, msg: nat)
    requires Inv(s) && WorkInv(from, s) && Enabled(s, Autoclaim(t, msg)) && s.broker.floor <= msg
    requires !Taken(from, s, msg)
    ensures Changes(from, s, Do(s, Autoclaim(t, msg)), t)
  {
  }

  lemma InspectChanges(from: State, s: State, t: nat)
    requires WorkInv(from, s) && Enabled(s, Inspect(t, true)) && t !in from.tasks
    ensures Changes(from, s, Do(s, Inspect(t, true)), t)
  {
    assert Mine(from, s, t);
  }

  lemma FinishChanges(from: State, s: State, t: nat, result: JobResult)
    requires WorkInv(from, s) && Enabled(s, Finish(t, result)) && t !in from.tasks
    ensures Changes(from, s, Do(s, Finish(t, result)), t)
  {
    assert Mine(from, s, t);
  }

  lemma ExecStands(s: State, t: nat)
    requires IsInPipe(s, t) && s.tasks[t].Flight? && FromWorker(s.tasks[t].pipe) && Stands(s.broker, s.tasks[t])
    ensures var s' := Do(s, Exec(t, true));
            && Advances(s.broker, s'.broker) && Stands(s'.broker, s'.tasks[t])
            && s'.tasks[t] == Flight(s.tasks[t].pipe, s.tasks[t].done + 1)
  {
  }

  lemma ExecAcknowledges(s: State, t: nat)
    requires IsInPipe(s, t) && s.tasks[t].Flight? && FromWorker(s.tasks[t].pipe) && Stands(s.broker, s.tasks[t])
    ensures Acknowledges(s.broker, Do(s, Exec(t, true)).broker)
  {
  }

  lemma ExecPends(s: State, t: nat)
    requires IsInPipe(s, t) && s.tasks[t].Flight? && FromWorker(s.tasks[t].pipe)
    ensures var s', Flight(pipe, done) := Do(s, Exec(t, true)), s.tasks[t];
            if done == AckAt(pipe)
            then s'.broker.pel == s.broker.pel - {pipe.msg} && Held(s'.tasks[t]).None?
            else s'.broker.pel == s.broker.pel && Held(s'.tasks[t]) == Held(s.tasks[t])
  {
  }

  lemma ExecChanges(from: State, s: State, t: nat)
    requires WorkInv(from, s) && Enabled(s, Exec(t, true)) && t !in from.tasks
    ensures Changes(from, s, Do(s, Exec(t, true)), t)
  {
    assert Mine(from, s, t);
    ExecStands(s, t);
    ExecAcknowledges(s, t);
    ExecPends(s, t);
  }

  /** A garbled entry is delivered, or a trimmed one dropped: no task changes. */
  lemma IdleKeepsWork(from: State, s: State, s': State)
    requires WorkInv(from, s) && s'.tasks == s.tasks
    requires Advances(s.broker, s'.broker) && Acknowledges(s.broker, s'.broker)
    requires forall m | m in s.broker.pel && m !in s'.broker.pel :: !Taken(from, s, m)
    ensures WorkInv(from, s')
  {
    AcknowledgesOn(from.broker, s.broker, s'.broker);
    forall u | Mine(from, s', u) ensures Stands(s'.broker, s'.tasks[u]) {
      assert Mine(from, s, u);
      StandsOn(s.broker, s'.broker, s.tasks[u]);
    }
  }

  /** Deliveries of garbled entries and drops of trimmed ones. */
  predicate Idle(s: State, e: Event)
    requires Enabled(s, e)
  {
    (e.Deliver? && s.broker.stream[NextEntry(s.broker)].Garbled?) || (e.Autoclaim? && e.msg < s.broker.floor)
  }

  lemma StepChanges(judge: Judge, from: State, s: State, e: Event)
    requires Inv(s) && WorkInv(from, s) && Enabled(s, e) && Diligent(judge, from, s, e) && !Idle(s, e)
    ensures Changes(from, s, Do(s, e), e.task)
  {
    match e
    case Deliver(t) => DeliverChanges(from, s, t);
    case Autoclaim(t, msg) => ClaimChanges(from, s, t, msg);
    case Inspect(t, _) => InspectChanges(from, s, t);
    case Finish(t, result) => FinishChanges(from, s, t, result);
    case Exec(t, _) => ExecChanges(from, s, t);
  }

  lemma StepKeepsWork(judge: Judge, from: State, s: State, e: Event)
    requires Inv(s) && WorkInv(from, s) && Enabled(s, e) && Diligent(judge, from, s, e)
    ensures WorkInv(from, Do(s, e))
  {
    if Idle(s, e) {
      IdleKeepsWork(from, s, Do(s, e));
    } else {
      StepChanges(judge, from, s, e);
      ChangeKeepsWork(from, s, Do(s, e), e.task);
    }
  }

  // ----- every step brings the end nearer -----

  /** The steps that a task still needs. */
  function Remaining(task: Task): nat {
    match task
    case Swept(_) => 6
    case Running(_, _) => 5
    case Flight(pipe, done) => if done <= |Commands(pipe)| then |Commands(pipe)| - done else 0
    case _ => 0
  }

  function RemainingOf(from: State, tasks: map<nat, Task>, t: nat): nat {
    if t in tasks && t !in from.tasks then Remaining(tasks[t]) else 0
  }

  /** The steps that the worker's tasks below n still need. */
  function RemainingBelow(from: State, tasks: map<nat, Task>, n: nat): nat {
    if n == 0 then 0 else RemainingBelow(from, tasks, n - 1) + RemainingOf(from, tasks, n - 1)
  }

  lemma {:induction false} RemainingChanges(from: State, s: State, s': State, t: nat, n: nat)
    requires s'.tasks - {t} == s.tasks - {t}
    ensures RemainingBelow(from, s'.tasks, n) + (if t < n then RemainingOf(from, s.tasks, t) else 0)
         == RemainingBelow(from, s.tasks, n) + if t < n then RemainingOf(from, s'.tasks, t) else 0
  {
    if n > 0 {
      RemainingChanges(from, s, s', t, n - 1);
      if t != n - 1 {
        SameBut(s, s', t, n - 1);
      }
    }
  }

  /** The pending entries that the worker has not claimed. */
  ghost function Unclaimed(from: State, s: State): (unclaimed: set<nat>)
    ensures forall m: nat :: m in unclaimed <==> m in s.broker.pel && !Taken(from, s, m)
  {
    set m | m in s.broker.pel && !Taken(from, s, m)
  }

  /** Each entry not delivered yet costs up to eight steps, and each unclaimed one up to seven. */
  ghost function StepsLeft(from: State, s: State, n: nat): int {
    8 * (|s.broker.stream| - s.broker.delivered) + 7 * |Unclaimed(from, s)| + RemainingBelow(from, s.tasks, n)
  }

  lemma ChangeClaims(from: State, s: State, s': State, t: nat)
    requires WorkInv(from, s) && Changes(from, s, s', t)
    ensures Unclaimed(from, s') <= Unclaimed(from, s)
    ensures Held(s'.tasks[t]).Some? ==> Held(s'.tasks[t]).value !in Unclaimed(from, s')
  {
    assert Mine(from, s', t);
    forall m | m in Unclaimed(from, s') ensures m in Unclaimed(from, s) {
      assert m in s.broker.pel;
      if u :| Mine(from, s, u) && Held(s.tasks[u]) == Some(m) {
        if u != t {
          SameBut(s, s', t, u);
          assert Mine(from, s', u);
        }
        assert false;
      }
    }
  }

  lemma IdleNears(judge: Judge, from: State, s: State, e: Event, n: nat)
    requires Inv(s) && WorkInv(from, s) && Enabled(s, e) && Diligent(judge, from, s, e) && Idle(s, e)
    ensures StepsLeft(from, Do(s, e), n) < StepsLeft(from, s, n)
  {
    var s' := Do(s, e);
    assert forall m | m in s.broker.pel * s'.broker.pel :: Taken(from, s', m) <==> Taken(from, s, m);
    if e.Deliver? {
      SubsetSize(Unclaimed(from, s'), Unclaimed(from, s) + {NextEntry(s.broker)});
    } else {
      assert e.msg in Unclaimed(from, s);
      SubsetSize(Unclaimed(from, s'), Unclaimed(from, s) - {e.msg});
    }
  }

  /** What a step costs the task that takes it. */
  lemma ChangeCosts(judge: Judge, from: State, s: State, e: Event)
    requires WorkInv(from, s) && Enabled(s, e) && Diligent(judge, from, s, e) && !Idle(s, e)
    ensures var left, left' := RemainingOf(from, s.tasks, e.task), RemainingOf(from, Do(s, e).tasks, e.task);
            left' <= left - 1 + if e.Deliver? then 8 else if e.Autoclaim? then 7 else 0
  {
    assert !e.Deliver? && !e.Autoclaim? ==> Mine(from, s, e.task);
  }

  /** What it gains at the broker. */
  lemma ChangeGains(judge: Judge, from: State, s: State, e: Event)
    requires Inv(s) && WorkInv(from, s) && Enabled(s, e) && Diligent(judge, from, s, e) && !Idle(s, e)
    ensures |Unclaimed(from, Do(s, e))| + (if e.Autoclaim? then 1 else 0) <= |Unclaimed(from, s)|
  {
    var s' := Do(s, e);
    StepChanges(judge, from, s, e);
    ChangeClaims(from, s, s', e.task);
    SubsetSize(Unclaimed(from, s'), Unclaimed(from, s));
    if e.Autoclaim? {
      assert e.msg in Unclaimed(from, s);
      SubsetSize(Unclaimed(from, s'), Unclaimed(from, s) - {e.msg});
    }
  }

  lemma ChangeDelivers(s: State, e: Event)
    requires Enabled(s, e) && (e.Exec? ==> FromWorker(s.tasks[e.task].pipe))
    requires e.Deliver? || e.Autoclaim? || e.Inspect? || e.Finish? || e.Exec?
    ensures Do(s, e).broker.stream == s.broker.stream
    ensures s.broker.delivered + (if e.Deliver? then 1 else 0) <= Do(s, e).broker.delivered
  {
  }

  lemma ChangeNears(judge: Judge, from: State, s: State, e: Event, n: nat)
    requires Inv(s) && WorkInv(from, s) && Enabled(s, e) && Diligent(judge, from, s, e) && !Idle(s, e) && e.task < n
    ensures StepsLeft(from, Do(s, e), n) < StepsLeft(from, s, n)
  {
    ChangeCosts(judge, from, s, e);
    ChangeGains(judge, from, s, e);
    assert e.Exec? ==> Mine(from, s, e.task);
    ChangeDelivers(s, e);
    StepChanges(judge, from, s, e);
    RemainingChanges(from, s, Do(s, e), e.task, n);
  }

  /** No task has a number of n or more. */
  predicate TasksBelow(es: seq<Event>, n: nat) {
    forall i | 0 <= i < |es| && HasTask(es[i]) :: es[i].task < n
  }

  predicate HasTask(e: Event) {
    !e.ExpireResult? && !e.ExpireMarker? && !e.Trim? && !e.AddGarbled?
  }

  lemma {:induction false} SomeBound(es: seq<Event>) returns (n: nat)
    ensures TasksBelow(es, n)
  {
    if es == [] {
      n := 0;
    } else {
      var last := es[|es| - 1];
      n := SomeBound(es[..|es| - 1]);
      n := if HasTask(last) then Max(n, last.task + 1) else n;
    }
  }

  lemma {:induction false} WorkGoesOn(judge: Judge, from: State, ss: seq<State>, es: seq<Event>, n: nat, k: nat)
    requires Inv(from) && Work(judge, from, ss, es) && TasksBelow(es, n) && k < |ss|
    ensures Inv(ss[k]) && WorkInv(from, ss[k]) && k + StepsLeft(from, ss[k], n) <= StepsLeft(from, from, n)
  {
    if k > 0 {
      WorkGoesOn(judge, from, ss, es, n, k - 1);
      var s, e := ss[k - 1], es[k - 1];
      assert Enabled(s, e) && ss[k] == Do(s, e) && Diligent(judge, from, s, e);
      StepKeepsInv(s, e);
      StepKeepsWork(judge, from, s, e);
      if Idle(s, e) {
        IdleNears(judge, from, s, e, n);
      } else {
        ChangeNears(judge, from, s, e, n);
      }
    }
  }

  lemma {:induction false} NothingBegun(from: State, n: nat)
    ensures RemainingBelow(from, from.tasks, n) == 0
  {
    if n > 0 {
      NothingBegun(from, n - 1);
    }
  }

  lemma StepsAtFirst(from: State, n: nat)
    requires Inv(from)
    ensures StepsLeft(from, from, n) <= RecoverySteps(from.broker)
  {
    NothingBegun(from, n);
    SubsetSize(Unclaimed(from, from), from.broker.pel);
  }

  // ----- where it ends -----

  /** The worker has no step left. */
  ghost predicate Stuck(judge: Judge, from: State, s: State) {
    forall e: Event :: Enabled(s, e) ==> !Diligent(judge, from, s, e)
  }

  lemma StuckHasDelivered(judge: Judge, from: State, s: State)
    requires Stuck(judge, from, s)
    ensures NextEntry(s.broker) >= |s.broker.stream|
  {
    var t := FreshTask(s.tasks.Keys);
    assert !Enabled(s, Deliver(t));
  }

  lemma StuckHoldsNothing(judge: Judge, from: State, s: State, msg: nat)
    requires WorkInv(from, s) && Stuck(judge, from, s)
    ensures !Taken(from, s, msg)
  {
    if t :| Mine(from, s, t) && Held(s.tasks[t]) == Some(msg) {
      match s.tasks[t]
      case Swept(_) => assert Enabled(s, Inspect(t, true));
      case Running(_, request) => assert Enabled(s, Finish(t, JobResult(request.jobId, judge(request))));
      case Flight(_, _) => assert Enabled(s, Exec(t, true));
    }
  }

  lemma StuckHasNoPending(judge: Judge, from: State, s: State)
    requires WorkInv(from, s) && Stuck(judge, from, s)
    ensures s.broker.pel == {}
  {
    var t := FreshTask(s.tasks.Keys);
    if msg :| msg in s.broker.pel {
      StuckHoldsNothing(judge, from, s, msg);
      assert Enabled(s, Autoclaim(t, msg));
    }
  }

  /** Every way to recover: from any reachable state, whatever crashes and broken connections left
      behind, a worker that works without faults, in whatever order it takes its steps, ends after at most
      eight steps for each entry not delivered yet and seven for each pending one. When it has no step
      left, every untrimmed entry is acked, and each that was not before has its job's result stored and
      its marker gone. */
  lemma EveryWayRecovers(judge: Judge, past: seq<State>, events: seq<Event>, k: nat, ss: seq<State>, es: seq<Event>)
    requires RunFromInit(past, events) && k < |past| && Work(judge, past[k], ss, es)
    ensures past[k].broker.delivered <= |past[k].broker.stream|
    ensures |es| <= RecoverySteps(past[k].broker)
    ensures Stuck(judge, past[k], ss[|es|]) ==> Recovered(past[k].broker, ss[|es|].broker)
  {
    var from := past[k];
    InitInv(past[0]);
    RunKeepsInv(past, events, k);
    var n := SomeBound(es);
    WorkGoesOn(judge, from, ss, es, n, |es|);
    StepsAtFirst(from, n);
    var s := ss[|es|];
    if Stuck(judge, from, s) {
      StuckHasDelivered(judge, from, s);
      StuckHasNoPending(judge, from, s);
    }
  }
}
