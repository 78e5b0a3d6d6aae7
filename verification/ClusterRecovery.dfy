/**
 Recovery: whatever crashes and broken connections left behind, one live worker can finish every job.
 The schedule is the sweep's: deliver what was never delivered, then claim, inspect and, where no
 result is stored, re-run each entry of the pending list.
 */
module ClusterRecovery {
  import opened Prelude
  import opened Redis
  import opened Cluster
  import opened ClusterRuns

  /** What the judge says about a request; recovery must work whatever it says. */
  type Judge = Request -> string

  /** A step of a live worker without any fault. */
  predicate Progress(judge: Judge, s: State, e: Event) {
    match e
    case Deliver(_) => true
    case Autoclaim(_, _) => true
    case Inspect(_, heard) => heard
    case Finish(t, result) =>
      t in s.tasks && s.tasks[t].Running? && result.report == judge(s.tasks[t].request)
    case Exec(_, heard) => heard
    case _ => false
  }

  function ByWorker(judge: Judge): (State, Event) -> bool {
    (s: State, e: Event) => Progress(judge, s, e)
  }

  /** A faultless schedule from `s` to `s'` of at most `bound` steps. */
  ghost predicate Leads(judge: Judge, s: State, ss: seq<State>, es: seq<Event>, s': State, bound: nat) {
    Path(ByWorker(judge), s, ss, es) && ss[|es|] == s' && |es| <= bound
  }

  lemma FreshTask(tasks: set<nat>) returns (t: nat)
    ensures t !in tasks
  {
    t := 0;
    var rest := tasks;
    while rest != {}
      invariant rest <= tasks
      invariant forall u | u in tasks && u !in rest :: u < t
    {
      var u :| u in rest;
      rest := rest - {u};
      t := Max(t, u + 1);
    }
  }

  /** A worker's pipe, executed to its end, applies its remaining commands. */
  lemma {:induction false} ExecuteRest(judge: Judge, s: State, ss: seq<State>, es: seq<Event>, mid: State, bound: nat,
        t: nat)
    returns (ss': seq<State>, es': seq<Event>, end: State)
    requires Leads(judge, s, ss, es, mid, bound)
    requires t in mid.tasks && mid.tasks[t].Flight? && FromWorker(mid.tasks[t].pipe)
    requires mid.tasks[t].done <= |Commands(mid.tasks[t].pipe)|
    ensures var rest := Commands(mid.tasks[t].pipe)[mid.tasks[t].done..];
            Leads(judge, s, ss', es', end, bound + |rest|) && end.broker == ApplyAll(mid.broker, rest)
    decreases |Commands(mid.tasks[t].pipe)| - mid.tasks[t].done
  {
    var Flight(pipe, done) := mid.tasks[t];
    var rest := Commands(pipe)[done..];
    if rest == [] {
      ss', es', end := ss, es, mid;
    } else {
      var next := Do(mid, Exec(t, true));
      ss', es' := Walk(ByWorker(judge), s, ss, es, Exec(t, true));
      assert Commands(pipe)[done + 1..] == rest[1..];
      ss', es', end := ExecuteRest(judge, s, ss', es', next, bound + 1, t);
    }
  }

  predicate SameStream(b: Broker, b': Broker) {
    b'.stream == b.stream && b'.floor == b.floor && b'.born == b.born && b'.delivered == b.delivered
  }

  /** What a worker's steps may change: results are only added, markers only removed. */
  predicate Advances(b: Broker, b': Broker) {
    && b'.stream == b.stream && b'.floor == b.floor && b'.born == b.born
    && b.results.Keys <= b'.results.Keys && b'.markers <= b.markers && b.acked <= b'.acked
  }

  /** The entry is acked, and if it holds a job, its result is there and its marker is gone. */
  predicate Done(b: Broker, msg: nat)
    requires msg < |b.stream|
  {
    && msg in b.acked
    && (b.stream[msg].Job? ==> b.stream[msg].request.jobId in b.results && b.stream[msg].request.jobId !in b.markers)
  }

  /** What a finished worker pipe leaves. */
  lemma PipeAcks(b: Broker, pipe: Pipe)
    requires FromWorker(pipe) && pipe.msg in b.pel
    ensures var b' := ApplyAll(b, Commands(pipe));
            && b'.pel == b.pel - {pipe.msg} && pipe.msg in b'.acked
            && SameStream(b, b') && Advances(b, b')
            && (pipe.Report? ==> pipe.result.jobId in b'.results && pipe.result.jobId !in b'.markers)
            && (pipe.Reack? ==> pipe.id !in b'.markers)
  {
    var cmds := Commands(pipe);
    var b1 := Apply(b, cmds[0]);
    assert ApplyAll(b, cmds) == ApplyAll(b1, cmds[1..]);
    if pipe.Discard? {
      assert cmds[1..] == [];
    } else {
      var b2 := Apply(b1, cmds[1]);
      assert ApplyAll(b1, cmds[1..]) == ApplyAll(b2, cmds[2..]) by { assert cmds[1..][1..] == cmds[2..]; }
      var b3 := Apply(b2, cmds[2]);
      assert ApplyAll(b2, cmds[2..]) == ApplyAll(b3, cmds[3..]) by { assert cmds[2..][1..] == cmds[3..]; }
      if pipe.Reack? {
        assert cmds[3..] == [];
      } else {
        assert cmds[3..] == [cmds[3]];
      }
    }
  }

  /** What the sweep's decision about a claimed entry leads to. */
  lemma FinishInspected(judge: Judge, s: State, ss: seq<State>, es: seq<Event>, mid: State, bound: nat, msg: nat,
        t: nat)
    returns (ss': seq<State>, es': seq<Event>, end: State)
    requires Leads(judge, s, ss, es, mid, bound) && msg in mid.broker.pel && msg < |mid.broker.stream|
    requires t in mid.tasks && mid.tasks[t] == AfterInspect(mid.broker, msg, true)
    ensures Leads(judge, s, ss', es', end, bound + 5) && SameStream(mid.broker, end.broker)
    ensures Advances(mid.broker, end.broker) && end.broker.pel == mid.broker.pel - {msg} && Done(end.broker, msg)
  {
    if mid.tasks[t].Running? {
      var request := mid.tasks[t].request;
      var finished := Finish(t, JobResult(request.jobId, judge(request)));
      ss', es' := Walk(ByWorker(judge), s, ss, es, finished);
      PipeAcks(mid.broker, Do(mid, finished).tasks[t].pipe);
      ss', es', end := ExecuteRest(judge, s, ss', es', Do(mid, finished), bound + 1, t);
    } else {
      PipeAcks(mid.broker, mid.tasks[t].pipe);
      ss', es', end := ExecuteRest(judge, s, ss, es, mid, bound, t);
    }
  }

  /** One entry of the pending list is finished, or dropped if its payload was trimmed. */
  lemma FinishOne(judge: Judge, s: State, ss: seq<State>, es: seq<Event>, mid: State, bound: nat, msg: nat)
    returns (ss': seq<State>, es': seq<Event>, end: State)
    requires Leads(judge, s, ss, es, mid, bound) && Inv(mid) && msg in mid.broker.pel
    ensures Leads(judge, s, ss', es', end, bound + 7) && SameStream(mid.broker, end.broker)
    ensures Advances(mid.broker, end.broker) && end.broker.pel == mid.broker.pel - {msg}
    ensures mid.broker.floor <= msg ==> msg < |end.broker.stream| && Done(end.broker, msg)
  {
    var t := FreshTask(mid.tasks.Keys);
    var claimed := Do(mid, Autoclaim(t, msg));
    ss', es' := Walk(ByWorker(judge), s, ss, es, Autoclaim(t, msg));
    if msg < mid.broker.floor {
      end := claimed;
    } else {
      ss', es' := Walk(ByWorker(judge), s, ss', es', Inspect(t, true));
      ss', es', end := FinishInspected(judge, s, ss', es', Do(claimed, Inspect(t, true)), bound + 2, msg, t);
    }
  }

  lemma LeadsKeepsInv(judge: Judge, s: State, ss: seq<State>, es: seq<Event>, s': State, bound: nat)
    requires Leads(judge, s, ss, es, s', bound) && Inv(s)
    ensures Inv(s')
  {
    RunKeepsInv(ss, es, |es|);
  }

  /** Every untrimmed entry of `pending` is done. */
  ghost predicate AllDone(b: Broker, pending: set<nat>) {
    forall msg | msg in pending && b.floor <= msg < |b.stream| :: Done(b, msg)
  }

  lemma {:induction false} FinishAll(judge: Judge, s: State, ss: seq<State>, es: seq<Event>, mid: State, bound: nat)
    returns (ss': seq<State>, es': seq<Event>, end: State)
    requires Inv(s) && Leads(judge, s, ss, es, mid, bound)
    ensures Leads(judge, s, ss', es', end, bound + 7 * |mid.broker.pel|) && SameStream(mid.broker, end.broker)
    ensures Advances(mid.broker, end.broker) && end.broker.pel == {} && AllDone(end.broker, mid.broker.pel)
    decreases |mid.broker.pel|
  {
    if mid.broker.pel == {} {
      ss', es', end := ss, es, mid;
    } else {
      var msg :| msg in mid.broker.pel;
      LeadsKeepsInv(judge, s, ss, es, mid, bound);
      ss', es', end := FinishOne(judge, s, ss, es, mid, bound, msg);
      ss', es', end := FinishAll(judge, s, ss', es', end, bound + 7);
    }
  }

  /** Only entries were delivered: nobody else's tasks changed, and no key. */
  predicate OnlyDelivered(s: State, s': State) {
    && s'.broker.markers == s.broker.markers && s'.broker.results == s.broker.results
    && forall t | t in s.tasks :: t in s'.tasks && s'.tasks[t] == s.tasks[t]
  }

  lemma {:induction false} DeliverAll(judge: Judge, s: State, ss: seq<State>, es: seq<Event>, mid: State, bound: nat)
    returns (ss': seq<State>, es': seq<Event>, end: State)
    requires Inv(s) && Leads(judge, s, ss, es, mid, bound) && mid.broker.delivered <= |mid.broker.stream|
    ensures var todo := |mid.broker.stream| - mid.broker.delivered;
            Leads(judge, s, ss', es', end, bound + todo) && |end.broker.pel| <= |mid.broker.pel| + todo
    ensures Advances(mid.broker, end.broker) && end.broker.acked == mid.broker.acked
    ensures NextEntry(end.broker) >= |end.broker.stream| && OnlyDelivered(mid, end)
    decreases |mid.broker.stream| - mid.broker.delivered
  {
    if NextEntry(mid.broker) >= |mid.broker.stream| {
      ss', es', end := ss, es, mid;
    } else {
      var t := FreshTask(mid.tasks.Keys);
      ss', es' := Walk(ByWorker(judge), s, ss, es, Deliver(t));
      ss', es', end := DeliverAll(judge, s, ss', es', Do(mid, Deliver(t)), bound + 1);
    }
  }

  function RecoverySteps(b: Broker): nat
    requires b.delivered <= |b.stream|
  {
    var undelivered := |b.stream| - b.delivered;
    undelivered + 7 * (|b.pel| + undelivered)
  }

  /** The group is done with `b`'s entries in `b'`: every untrimmed one is acked, and each that was not
      acked before has its result stored now and its marker gone, or it never parsed. */
  predicate Recovered(b: Broker, b': Broker) {
    && b'.stream == b.stream && b'.floor == b.floor && b'.pel == {}
    && (forall i | b.born <= i < |b.stream| && b.floor <= i :: i in b'.acked)
    && (forall i | b.born <= i < |b.stream| && b.floor <= i && i !in b.acked :: Done(b', i))
  }

  /** Recovery: from any reachable state, a faultless schedule of one live worker empties the pending
      list and finishes every untrimmed entry since the group's creation: its job's result is stored,
      its marker is gone, and it is acked. It needs at most one step per undelivered entry and seven per
      unfinished one. */
  lemma EveryJobRecovers(judge: Judge, past: seq<State>, events: seq<Event>, k: nat)
    requires RunFromInit(past, events) && k < |past|
    ensures past[k].broker.delivered <= |past[k].broker.stream|
    ensures exists ss: seq<State>, es: seq<Event>, end: State ::
              Leads(judge, past[k], ss, es, end, RecoverySteps(past[k].broker)) && Recovered(past[k].broker, end.broker)
  {
    InitInv(past[0]);
    RunKeepsInv(past, events, k);
    var s := past[k];
    var b := s.broker;
    var undelivered := |b.stream| - b.delivered;
    var ss, es, mid := DeliverAll(judge, s, [s], [], s, 0);
    var ss', es', end := FinishAll(judge, s, ss, es, mid, undelivered);
    LeadsKeepsInv(judge, s, ss, es, mid, undelivered);
    assert Leads(judge, s, ss', es', end, RecoverySteps(b));
    forall i | b.born <= i < |b.stream| && b.floor <= i
      ensures i in end.broker.acked && (i !in b.acked ==> Done(end.broker, i))
    {
      assert i in mid.broker.pel || i in mid.broker.acked;
    }
  }
}
