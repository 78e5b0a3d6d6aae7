/**
 What whole runs of the cluster protocol guarantee: no job is lost, stored results come from runs of
 submitted requests, and the pending marker admits one enqueue at a time.
 */
module ClusterRuns {
  import opened Prelude
  import opened Redis
  import opened Cluster

  // ----- what an event does -----

  predicate Executes(s: State, e: Event, cmd: Command) {
    e.Exec? && IsInPipe(s, e.task) && Head(s.tasks[e.task]) == cmd
  }

  /** The event stores a result under `id`. */
  predicate Stores(s: State, e: Event, id: JobId) {
    e.Exec? && IsInPipe(s, e.task) && Head(s.tasks[e.task]).SetResult? && Head(s.tasks[e.task]).id == id
  }

  /** The event takes the pending marker of `id` away: a publish, a re-ack, a rollback, or expiry. */
  predicate ClearsMarker(s: State, e: Event, id: JobId) {
    e == ExpireMarker(id) || Executes(s, e, DelMarker(id))
  }

  /** The SET NX of an enqueue of `id`, and whether it found no marker. */
  predicate Claims(s: State, e: Event, id: JobId) {
    Executes(s, e, SetMarkerNX(id)) && s.tasks[e.task].Flight?
  }

  predicate WinsClaim(s: State, e: Event, id: JobId) {
    Claims(s, e, id) && id !in s.broker.markers
  }

  predicate Expires(e: Event, id: JobId) {
    e == ExpireResult(id) || e == ExpireMarker(id)
  }

  predicate Submits(e: Event, id: JobId) {
    e.Submit? && e.request.jobId == id
  }

  /** The task an event is a step of. */
  function Actor(e: Event): Option<nat> {
    match e
    case Inspect(t, _) => Some(t)
    case Finish(t, _) => Some(t)
    case Exec(t, _) => Some(t)
    case Break(t, _) => Some(t)
    case Vanish(t) => Some(t)
    case _ => None
  }

  predicate IsEntryOf(b: Broker, i: nat, id: JobId) {
    i < |b.stream| && b.stream[i].Job? && b.stream[i].request.jobId == id
  }

  predicate IsQueued(s: State, t: nat, id: JobId) {
    t in s.tasks && s.tasks[t].Answered? && s.tasks[t].request.jobId == id && s.tasks[t].outcome == Queued
  }

  /** An enqueue of `id` that returned Queued or may still do so. */
  predicate MayQueue(task: Task, id: JobId) {
    || (task.Answered? && task.request.jobId == id && task.outcome == Queued)
    || (task.Flight? && (task.pipe.Claim? || task.pipe.Append?) && task.pipe.request.jobId == id)
  }

  /** The enqueue t of `id` has not returned Queued, and never will. */
  predicate Refused(s: State, id: JobId, t: nat) {
    t in s.tasks ==> !MayQueue(s.tasks[t], id)
  }

  lemma RefusedStep(s: State, e: Event, id: JobId, t: nat)
    requires Enabled(s, e) && Refused(s, id, t) && !(Submits(e, id) && e.task == t)
    ensures Refused(Do(s, e), id, t)
  {
  }

  /** The event ends a run of `request` with `result`. */
  predicate Finishes(s: State, e: Event, request: Request, result: JobResult) {
    e.Finish? && e.result == result && e.task in s.tasks && s.tasks[e.task].Running?
    && s.tasks[e.task].request == request
  }

  ghost predicate RunFromInit(ss: seq<State>, es: seq<Event>) {
    Run(ss, es) && Init(ss[0])
  }

  // ----- no job is lost -----

  lemma {:induction false} StoredWasSet(ss: seq<State>, es: seq<Event>, k: nat, id: JobId) returns (j: nat)
    requires RunFromInit(ss, es) && k < |ss| && id in ss[k].broker.stored
    ensures j < k && Stores(ss[j], es[j], id)
  {
    if id in ss[k - 1].broker.stored {
      j := StoredWasSet(ss, es, k - 1, id);
    } else {
      assert ss[k] == Do(ss[k - 1], es[k - 1]);
      j := k - 1;
    }
  }

  lemma {:induction false} AckedWasAcked(ss: seq<State>, es: seq<Event>, k: nat, i: nat) returns (j: nat)
    requires RunFromInit(ss, es) && k < |ss| && i in ss[k].broker.acked
    ensures j < k && Executes(ss[j], es[j], XAck(i)) && i in ss[j].broker.pel && i !in ss[j].broker.acked
  {
    if i in ss[k - 1].broker.acked {
      j := AckedWasAcked(ss, es, k - 1, i);
    } else {
      assert ss[k] == Do(ss[k - 1], es[k - 1]);
      j := k - 1;
    }
  }

  lemma {:induction false} StreamGrows(ss: seq<State>, es: seq<Event>, j: nat, k: nat)
    requires Run(ss, es) && j <= k < |ss|
    ensures ss[j].broker.stream <= ss[k].broker.stream && ss[j].broker.born == ss[k].broker.born
    ensures ss[j].broker.delivered <= ss[k].broker.delivered
  {
    if j < k {
      StreamGrows(ss, es, j, k - 1);
      assert ss[k] == Do(ss[k - 1], es[k - 1]);
    }
  }

  /** No job is lost: at every point of every run, an untrimmed entry added after the group was
      created is in exactly one of: undelivered, on the pending list, acked. It was acked by an XACK
      that came after a result for its id had been stored, unless its payload never parsed. */
  lemma NoJobIsLost(ss: seq<State>, es: seq<Event>, k: nat, i: nat)
    requires RunFromInit(ss, es) && k < |ss|
    requires ss[k].broker.born <= i < |ss[k].broker.stream|
    ensures var b := ss[k].broker;
            && !(Undelivered(b, i) && i in b.pel)
            && !(Undelivered(b, i) && i in b.acked)
            && !(i in b.pel && i in b.acked)
            && (b.floor <= i ==> Undelivered(b, i) || i in b.pel || i in b.acked)
    ensures i in ss[k].broker.acked && ss[k].broker.stream[i].Job? ==>
              exists store, ack :: 0 <= store < ack < k
                && Stores(ss[store], es[store], ss[k].broker.stream[i].request.jobId)
                && Executes(ss[ack], es[ack], XAck(i))
  {
    InitInv(ss[0]);
    RunKeepsInv(ss, es, k);
    if i in ss[k].broker.acked && ss[k].broker.stream[i].Job? {
      var ack := AckedWasAcked(ss, es, k, i);
      RunKeepsInv(ss, es, ack + 1);
      assert i in ss[ack + 1].broker.acked by { assert ss[ack + 1] == Do(ss[ack], es[ack]); }
      StreamGrows(ss, es, ack + 1, k);
      assert Settled(ss[ack + 1].broker, i);
      assert ss[ack + 1].broker.stored == ss[ack].broker.stored by { assert ss[ack + 1] == Do(ss[ack], es[ack]); }
      var store := StoredWasSet(ss, es, ack, ss[k].broker.stream[i].request.jobId);
    }
  }

  // ----- results come from runs of what was submitted -----

  lemma {:induction false} RanWasFinished(ss: seq<State>, es: seq<Event>, k: nat, request: Request, result: JobResult)
    returns (j: nat)
    requires RunFromInit(ss, es) && k < |ss| && (request, result) in ss[k].ran
    ensures j < k && Finishes(ss[j], es[j], request, result)
  {
    if (request, result) in ss[k - 1].ran {
      j := RanWasFinished(ss, es, k - 1, request, result);
    } else {
      assert ss[k] == Do(ss[k - 1], es[k - 1]);
      j := k - 1;
    }
  }

  predicate GatewayPipe(task: Task, request: Request) {
    (task.Flight? || task.Stray?) && FromGateway(task.pipe) && task.pipe.request == request
  }

  lemma {:induction false} PipeWasSubmitted(ss: seq<State>, es: seq<Event>, k: nat, t: nat, request: Request)
    returns (j: nat)
    requires RunFromInit(ss, es) && k < |ss|
    requires t in ss[k].tasks && GatewayPipe(ss[k].tasks[t], request)
    ensures j < k && es[j].Submit? && es[j].request == request
  {
    var s, e := ss[k - 1], es[k - 1];
    assert ss[k] == Do(s, e) && Enabled(s, e);
    if t in s.tasks && GatewayPipe(s.tasks[t], request) {
      j := PipeWasSubmitted(ss, es, k - 1, t, request);
    } else if e.Break? && e.stray == Some(t) {
      assert GatewayPipe(s.tasks[e.task], request);
      j := PipeWasSubmitted(ss, es, k - 1, e.task, request);
    } else {
      assert e == Submit(t, request);
      j := k - 1;
    }
  }

  lemma {:induction false} EntryWasSubmitted(ss: seq<State>, es: seq<Event>, k: nat, i: nat) returns (j: nat)
    requires RunFromInit(ss, es) && k < |ss|
    requires ss[k].broker.born <= i < |ss[k].broker.stream| && ss[k].broker.stream[i].Job?
    ensures j < k && es[j].Submit? && es[j].request == ss[k].broker.stream[i].request
  {
    StreamGrows(ss, es, 0, k);
    var s, e := ss[k - 1], es[k - 1];
    assert ss[k] == Do(s, e) && Enabled(s, e);
    StreamGrows(ss, es, k - 1, k);
    if i < |s.broker.stream| {
      j := EntryWasSubmitted(ss, es, k - 1, i);
    } else {
      var request := ss[k].broker.stream[i].request;
      assert Executes(s, e, XAdd(Job(request)));
      j := PipeWasSubmitted(ss, es, k - 1, e.task, request);
    }
  }

  /** Refinement to a map: whatever a GET of `id` reads at any point of any run is the outcome of a
      run of a request that a gateway submitted under that very id. */
  lemma ResultsComeFromSubmittedRuns(ss: seq<State>, es: seq<Event>, k: nat, id: JobId)
    requires RunFromInit(ss, es) && k < |ss| && id in ss[k].broker.results
    ensures ss[k].broker.results[id].jobId == id
    ensures exists submit, finish :: 0 <= submit < finish < k
              && es[submit].Submit? && es[submit].request.jobId == id
              && Finishes(ss[finish], es[finish], es[submit].request, ss[k].broker.results[id])
  {
    InitInv(ss[0]);
    RunKeepsInv(ss, es, k);
    var result := ss[k].broker.results[id];
    var request :| (request, result) in ss[k].ran && request.jobId == id;
    var finish := RanWasFinished(ss, es, k, request, result);
    RunKeepsInv(ss, es, finish);
    var task := ss[finish].tasks[es[finish].task];
    assert TaskInv(ss[finish], task);
    var submit := EntryWasSubmitted(ss, es, finish, task.msg);
  }

  /** Re-runs are harmless: when every submission of `id` carries the same request, every result ever
      read for `id` is an outcome of running that request, however often the sweep re-ran it. */
  lemma RerunsAreIdempotent(ss: seq<State>, es: seq<Event>, k: nat, request: Request)
    requires RunFromInit(ss, es) && k < |ss| && request.jobId in ss[k].broker.results
    requires forall i | 0 <= i < |es| && es[i].Submit? && es[i].request.jobId == request.jobId ::
               es[i].request == request
    ensures exists finish :: 0 <= finish < k
              && Finishes(ss[finish], es[finish], request, ss[k].broker.results[request.jobId])
  {
    ResultsComeFromSubmittedRuns(ss, es, k, request.jobId);
  }

  // ----- re-runs -----

  /** Task t starts to run the job of entry `msg`. */
  predicate BeginsRun(s: State, e: Event, t: nat, msg: nat) {
    && Enabled(s, e) && t in Do(s, e).tasks && Do(s, e).tasks[t].Running? && Do(s, e).tasks[t].msg == msg
    && !(t in s.tasks && s.tasks[t] == Do(s, e).tasks[t])
  }

  /** The sweep inspects the entry, which holds a job, and its GET fails or finds no result. */
  predicate SeesNoResult(s: State, e: Event, msg: nat) {
    && e.Inspect? && e.task in s.tasks && s.tasks[e.task] == Swept(msg)
    && msg < |s.broker.stream| && s.broker.stream[msg].Job?
    && (!e.heard || s.broker.stream[msg].request.jobId !in s.broker.results)
  }

  predicate DeliversJob(s: State, e: Event, msg: nat) {
    e.Deliver? && Enabled(s, e) && NextEntry(s.broker) == msg && s.broker.stream[msg].Job?
  }

  lemma RunsBegin(s: State, e: Event, t: nat, msg: nat)
    requires Enabled(s, e)
    ensures BeginsRun(s, e, t, msg) <==> (DeliversJob(s, e, msg) || SeesNoResult(s, e, msg)) && e.task == t
  {
  }

  lemma {:induction false} PendingWasDelivered(ss: seq<State>, es: seq<Event>, k: nat, msg: nat) returns (j: nat)
    requires RunFromInit(ss, es) && k < |ss| && msg in ss[k].broker.pel
    ensures j < k && es[j].Deliver? && NextEntry(ss[j].broker) == msg
  {
    assert ss[k] == Do(ss[k - 1], es[k - 1]);
    if msg in ss[k - 1].broker.pel {
      j := PendingWasDelivered(ss, es, k - 1, msg);
    } else {
      j := k - 1;
    }
  }

  lemma {:induction false} SweptWasDelivered(ss: seq<State>, es: seq<Event>, k: nat, t: nat, msg: nat) returns (j: nat)
    requires RunFromInit(ss, es) && k < |ss| && t in ss[k].tasks && ss[k].tasks[t] == Swept(msg)
    ensures j < k && es[j].Deliver? && NextEntry(ss[j].broker) == msg
  {
    assert ss[k] == Do(ss[k - 1], es[k - 1]);
    if t in ss[k - 1].tasks && ss[k - 1].tasks[t] == Swept(msg) {
      j := SweptWasDelivered(ss, es, k - 1, t, msg);
    } else {
      j := PendingWasDelivered(ss, es, k - 1, msg);
    }
  }

  lemma BegunWasDelivered(ss: seq<State>, es: seq<Event>, i: nat, t: nat, msg: nat)
    requires RunFromInit(ss, es) && i < |es| && BeginsRun(ss[i], es[i], t, msg)
    ensures msg < ss[i + 1].broker.delivered
  {
    InitInv(ss[0]);
    RunKeepsInv(ss, es, i + 1);
    assert ss[i + 1] == Do(ss[i], es[i]);
    assert TaskInv(ss[i + 1], ss[i + 1].tasks[t]);
  }

  /** Duplicate execution: a job's entry is run again exactly when the sweep inspects it and its GET is
      not answered or finds no result; whether the earlier run is over plays no part. */
  lemma RunsAgainIff(ss: seq<State>, es: seq<Event>, k: nat, msg: nat)
    requires RunFromInit(ss, es) && k < |es|
    ensures (exists t :: BeginsRun(ss[k], es[k], t, msg))
            && (exists i, t :: 0 <= i < k && BeginsRun(ss[i], es[i], t, msg))
       <==> SeesNoResult(ss[k], es[k], msg)
  {
    if t :| BeginsRun(ss[k], es[k], t, msg) {
      RunsBegin(ss[k], es[k], t, msg);
      if i, u :| 0 <= i < k && BeginsRun(ss[i], es[i], u, msg) {
        BegunWasDelivered(ss, es, i, u, msg);
        StreamGrows(ss, es, i + 1, k);
      }
    }
    if SeesNoResult(ss[k], es[k], msg) {
      RunsBegin(ss[k], es[k], es[k].task, msg);
      var j := SweptWasDelivered(ss, es, k, es[k].task, msg);
      StreamGrows(ss, es, j, k);
      RunsBegin(ss[j], es[j], es[j].task, msg);
    }
  }

  // ----- claim exclusion -----

  lemma {:induction false} MarkerWasCleared(ss: seq<State>, es: seq<Event>, i: nat, k: nat, id: JobId) returns (j: nat)
    requires Run(ss, es) && i <= k < |ss|
    requires id in ss[i].broker.markers && id !in ss[k].broker.markers
    ensures i <= j < k && ClearsMarker(ss[j], es[j], id)
    ensures forall n | j < n <= k :: id !in ss[n].broker.markers
  {
    assert ss[k] == Do(ss[k - 1], es[k - 1]);
    if id in ss[k - 1].broker.markers {
      j := k - 1;
    } else {
      j := MarkerWasCleared(ss, es, i, k - 1, id);
    }
  }

  /** The number t stands for one and the same activity. */
  predicate Lasts(ss: seq<State>, i: nat, k: nat, t: nat)
    requires k < |ss|
  {
    forall j | i <= j <= k :: t in ss[j].tasks
  }

  lemma AppendBegins(s: State, e: Event, t: nat, request: Request)
    requires Inv(s) && Enabled(s, e) && t in Do(s, e).tasks && Do(s, e).tasks[t] == Flight(Append(request), 0)
    requires !(t in s.tasks && s.tasks[t] == Flight(Append(request), 0))
    ensures e.Exec? && e.task == t && t in s.tasks && WinsClaim(s, e, request.jobId)
  {
    assert e.Exec? && e.task == t;
    assert TaskInv(s, s.tasks[t]);
  }

  lemma {:induction false} AppendWasClaimed(ss: seq<State>, es: seq<Event>, k: nat, t: nat, request: Request)
    returns (j: nat)
    requires RunFromInit(ss, es) && k < |ss| && t in ss[k].tasks && ss[k].tasks[t] == Flight(Append(request), 0)
    ensures j < k && es[j].Exec? && es[j].task == t && WinsClaim(ss[j], es[j], request.jobId) && Lasts(ss, j, k, t)
  {
    var s, e := ss[k - 1], es[k - 1];
    assert ss[k] == Do(s, e) && Enabled(s, e);
    if t in s.tasks && s.tasks[t] == Flight(Append(request), 0) {
      j := AppendWasClaimed(ss, es, k - 1, t, request);
    } else {
      InitInv(ss[0]);
      RunKeepsInv(ss, es, k - 1);
      AppendBegins(s, e, t, request);
      j := k - 1;
    }
  }

  /** An enqueue that returned Queued won a claim and then appended its job. */
  lemma {:induction false} QueuedWasClaimed(ss: seq<State>, es: seq<Event>, k: nat, t: nat, request: Request)
    returns (claim: nat, append: nat)
    requires RunFromInit(ss, es) && k < |ss| && t in ss[k].tasks && ss[k].tasks[t] == Answered(request, Queued)
    ensures claim < append < k && Lasts(ss, claim, k, t)
    ensures es[claim].Exec? && es[claim].task == t && WinsClaim(ss[claim], es[claim], request.jobId)
    ensures es[append].Exec? && es[append].task == t && Executes(ss[append], es[append], XAdd(Job(request)))
  {
    var s, e := ss[k - 1], es[k - 1];
    assert ss[k] == Do(s, e) && Enabled(s, e);
    if t in s.tasks && s.tasks[t] == Answered(request, Queued) {
      claim, append := QueuedWasClaimed(ss, es, k - 1, t, request);
    } else {
      assert e.Exec? && e.task == t && s.tasks[t].pipe == Append(request);
      append := k - 1;
      claim := AppendWasClaimed(ss, es, append, t, request);
    }
  }

  /** Two enqueues of one id win their claims only with a clearing of the marker in between. */
  lemma ClaimsExclude(ss: seq<State>, es: seq<Event>, i: nat, k: nat, id: JobId)
    requires Run(ss, es) && i < k < |es|
    requires WinsClaim(ss[i], es[i], id) && WinsClaim(ss[k], es[k], id)
    ensures exists j :: i < j < k && ClearsMarker(ss[j], es[j], id)
  {
    assert ss[i + 1] == Do(ss[i], es[i]);
    var j := MarkerWasCleared(ss, es, i + 1, k, id);
  }

  /** Claim exclusion over whole runs: if two enqueues of one id both return Queued, at whatever times,
      then between their claims a publish, a re-ack, a rollback or the expiry took the marker away. */
  lemma QueuedEnqueuesExclude(ss: seq<State>, es: seq<Event>, k: nat, t: nat, n: nat, u: nat, id: JobId)
    requires RunFromInit(ss, es) && k <= n < |ss| && IsQueued(ss[k], t, id) && IsQueued(ss[n], u, id)
    requires t != u || !Lasts(ss, k, n, t)
    ensures exists i, j, m :: 0 <= i < j < m < n
              && WinsClaim(ss[i], es[i], id) && ClearsMarker(ss[j], es[j], id) && WinsClaim(ss[m], es[m], id)
              && {es[i].task, es[m].task} == {t, u}
  {
    var i, _ := QueuedWasClaimed(ss, es, k, t, ss[k].tasks[t].request);
    var m, _ := QueuedWasClaimed(ss, es, n, u, ss[n].tasks[u].request);
    if i < m {
      ClaimsExclude(ss, es, i, m, id);
    } else {
      assert i != m;
      ClaimsExclude(ss, es, m, i, id);
    }
  }

  lemma {:induction false} ClaimDeletedFirst(ss: seq<State>, es: seq<Event>, k: nat, t: nat, request: Request)
    returns (j: nat)
    requires RunFromInit(ss, es) && k < |ss| && t in ss[k].tasks && ss[k].tasks[t] == Flight(Claim(request), 1)
    ensures j < k && es[j].Exec? && es[j].task == t && Executes(ss[j], es[j], DelResult(request.jobId))
  {
    var s, e := ss[k - 1], es[k - 1];
    assert ss[k] == Do(s, e) && Enabled(s, e);
    if t in s.tasks && s.tasks[t] == Flight(Claim(request), 1) {
      j := ClaimDeletedFirst(ss, es, k - 1, t, request);
    } else {
      assert e.Exec? && e.task == t;
      j := k - 1;
    }
  }

  lemma ClaimTask(s: State, e: Event, id: JobId)
    requires Inv(s) && Enabled(s, e) && Claims(s, e, id)
    ensures s.tasks[e.task].pipe.Claim? && s.tasks[e.task].pipe.request.jobId == id && s.tasks[e.task].done == 1
    ensures id in s.broker.markers ==> Do(s, e).broker == s.broker
    ensures id in s.broker.markers ==>
              Do(s, e).tasks[e.task] == Answered(s.tasks[e.task].pipe.request, if e.heard then Duplicate else RedisDown)
  {
    assert TaskInv(s, s.tasks[e.task]);
  }

  lemma {:induction false} RefusedAlong(ss: seq<State>, es: seq<Event>, i: nat, k: nat, id: JobId, t: nat)
    requires Run(ss, es) && i <= k < |ss| && Refused(ss[i], id, t)
    requires forall j | i <= j < k :: !(Submits(es[j], id) && es[j].task == t)
    ensures Refused(ss[k], id, t)
  {
    if i < k {
      RefusedAlong(ss, es, i, k - 1, id, t);
      RefusedStep(ss[k - 1], es[k - 1], id, t);
    }
  }

  /** The other half of claim exclusion: an enqueue whose claim at k falls between another one's winning
      claim and the next clearing of the marker changes nothing with it, answers Duplicate, or RedisDown
      if its reply is lost, and never comes to append or to Queued. It did delete the id's result. */
  lemma ClaimInBetweenLoses(ss: seq<State>, es: seq<Event>, i: nat, k: nat, n: nat, id: JobId)
    requires RunFromInit(ss, es) && i < k < n < |ss| && WinsClaim(ss[i], es[i], id) && Claims(ss[k], es[k], id)
    requires forall j | i < j < k :: !ClearsMarker(ss[j], es[j], id)
    requires forall j | k < j < n :: !(Submits(es[j], id) && es[j].task == es[k].task)
    ensures var t := es[k].task;
            && !WinsClaim(ss[k], es[k], id) && ss[k + 1].broker == ss[k].broker
            && t in ss[k + 1].tasks && ss[k].tasks[t].pipe.Claim?
            && ss[k + 1].tasks[t] == Answered(ss[k].tasks[t].pipe.request, if es[k].heard then Duplicate else RedisDown)
            && Refused(ss[n], id, t)
    ensures exists d :: 0 <= d < k && es[d].Exec? && es[d].task == es[k].task && Executes(ss[d], es[d], DelResult(id))
  {
    InitInv(ss[0]);
    RunKeepsInv(ss, es, k);
    assert ss[i + 1] == Do(ss[i], es[i]);
    if id !in ss[k].broker.markers {
      var j := MarkerWasCleared(ss, es, i + 1, k, id);
    }
    ClaimTask(ss[k], es[k], id);
    assert ss[k + 1] == Do(ss[k], es[k]);
    var d := ClaimDeletedFirst(ss, es, k, es[k].task, ss[k].tasks[es[k].task].pipe.request);
    RefusedAlong(ss, es, k + 1, n, id, es[k].task);
  }
}
