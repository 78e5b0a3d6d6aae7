/**
 What keeps a job visible once its enqueue is over: its result key or its pending marker is there after
 every single command as long as no task of an earlier submission undermines it.
 */
module ClusterVisibility {
  import opened Redis
  import opened Cluster
  import opened ClusterRuns

  predicate Live(s: State, id: JobId) {
    id in s.broker.results || id in s.broker.markers
  }

  /** The client still acts on the pipe, or commands of it are on their way. */
  predicate Active(task: Task) {
    task.Flight? || InPipe(task)
  }

  /** The task may delete the result of `id`; or, when none is stored, its marker without storing one:
      a report or re-ack past the point where the result was there, or a failing enqueue's rollback. */
  predicate Undermines(task: Task, id: JobId, stored: bool) {
    (task.Flight? || task.Stray?) &&
    match task.pipe
    case Report(_, _, result) => !stored && result.jobId == id && task.done == 1
    case Reack(_, i) => !stored && i == id && (task.Flight? || task.done == 0)
    case Discard(_) => false
    case Claim(request) => request.jobId == id && task.done == 0
    case Append(request) => !stored && request.jobId == id && task.Flight?
    case Rollback(request) => !stored && request.jobId == id && task.done == 0
  }

  /** Result or marker is there, and no task undermines it. */
  predicate Safe(s: State, id: JobId) {
    && Live(s, id)
    && forall t | t in s.tasks :: !Undermines(s.tasks[t], id, id in s.broker.results)
  }

  /** What a safe state's next command may be. */
  lemma SafeHead(s: State, t: nat, id: JobId)
    requires Inv(s) && Safe(s, id) && IsInPipe(s, t)
    ensures Head(s.tasks[t]) != DelResult(id)
    ensures Head(s.tasks[t]) == DelMarker(id) ==> id in s.broker.results
  {
    assert !Undermines(s.tasks[t], id, id in s.broker.results) && TaskInv(s, s.tasks[t]);
  }

  lemma SafeBroker(s: State, e: Event, id: JobId)
    requires Inv(s) && Safe(s, id) && Enabled(s, e) && !Expires(e, id)
    ensures id in s.broker.results ==> id in Do(s, e).broker.results
    ensures id in s.broker.markers && !Executes(s, e, DelMarker(id)) ==> id in Do(s, e).broker.markers
    ensures Executes(s, e, DelMarker(id)) ==> id in s.broker.results && id !in Do(s, e).broker.markers
    ensures id in Do(s, e).broker.markers && id !in s.broker.markers ==> Executes(s, e, SetMarkerNX(id))
  {
    if e.Exec? {
      SafeHead(s, e.task, id);
    }
  }

  lemma SafeActor(s: State, e: Event, id: JobId)
    requires Inv(s) && Safe(s, id) && Enabled(s, e) && e.Exec?
    ensures !Undermines(AfterExec(s.tasks[e.task], Wins(s.broker, Head(s.tasks[e.task])), e.heard), id,
                        id in Do(s, e).broker.results)
  {
    SafeBroker(s, e, id);
    assert !Undermines(s.tasks[e.task], id, id in s.broker.results) && TaskInv(s, s.tasks[e.task]);
  }

  lemma SafeBreak(s: State, e: Event, id: JobId, u: nat)
    requires Inv(s) && Safe(s, id) && Enabled(s, e) && e.Break? && u in Do(s, e).tasks
    ensures !Undermines(Do(s, e).tasks[u], id, id in s.broker.results)
  {
    assert !Undermines(s.tasks[e.task], id, id in s.broker.results) && TaskInv(s, s.tasks[e.task]);
  }

  lemma SafeOther(s: State, e: Event, id: JobId, u: nat)
    requires Inv(s) && Safe(s, id) && Enabled(s, e) && !e.Exec? && !e.Break? && u in Do(s, e).tasks
    requires !Submits(e, id)
    ensures !Undermines(Do(s, e).tasks[u], id, id in s.broker.results)
  {
  }

  lemma SafeStep(s: State, e: Event, id: JobId)
    requires Inv(s) && Safe(s, id) && Enabled(s, e)
    requires !Expires(e, id) && !Submits(e, id)
    ensures Safe(Do(s, e), id)
  {
    SafeBroker(s, e, id);
    forall u | u in Do(s, e).tasks ensures !Undermines(Do(s, e).tasks[u], id, id in Do(s, e).broker.results) {
      if e.Exec? && e.task == u {
        SafeActor(s, e, id);
      } else if e.Break? {
        SafeBreak(s, e, id, u);
      } else if !e.Exec? {
        SafeOther(s, e, id, u);
      }
    }
  }

  /** From a safe state on, result or marker is there until a key expires or the id is submitted again. */
  lemma {:induction false} SafeAlong(ss: seq<State>, es: seq<Event>, i: nat, k: nat, id: JobId)
    requires Run(ss, es) && Inv(ss[0]) && i <= k < |ss| && Safe(ss[i], id)
    requires forall j | i <= j < k :: !Expires(es[j], id) && !Submits(es[j], id)
    ensures Safe(ss[k], id)
    ensures id in ss[i].broker.results ==> id in ss[k].broker.results
  {
    if i < k {
      SafeAlong(ss, es, i, k - 1, id);
      RunKeepsInv(ss, es, k - 1);
      SafeStep(ss[k - 1], es[k - 1], id);
      SafeBroker(ss[k - 1], es[k - 1], id);
    }
  }

  // ----- what is finished stays visible as finished -----

  /** The pipe belongs to entry i, and stored its result or relies on it. */
  predicate Backs(task: Task, i: nat) {
    Active(task) &&
    match task.pipe
    case Report(msg, _, _) => msg == i && 1 <= task.done
    case Reack(msg, _) => msg == i
    case _ => false
  }

  /** The pipe belongs to entry i, and has deleted its marker. */
  predicate Cleared(task: Task, i: nat) {
    Active(task) &&
    match task.pipe
    case Report(msg, _, _) => msg == i && 2 <= task.done
    case Reack(msg, _) => msg == i && 1 <= task.done
    case _ => false
  }

  /** The result of entry i is there from the moment its pipe stored it. */
  ghost predicate Backed(s: State, id: JobId, i: nat) {
    && (forall t | t in s.tasks && Backs(s.tasks[t], i) :: id in s.broker.results)
    && (i in s.broker.acked ==> id in s.broker.results)
  }

  lemma BackedTask(s: State, e: Event, id: JobId, i: nat, u: nat)
    requires Inv(s) && Safe(s, id) && Backed(s, id, i) && Enabled(s, e) && !Expires(e, id) && IsEntryOf(s.broker, i, id)
    requires u in Do(s, e).tasks && Backs(Do(s, e).tasks[u], i)
    ensures id in Do(s, e).broker.results
  {
    SafeBroker(s, e, id);
    if Actor(e).Some? {
      assert TaskInv(s, s.tasks[e.task]);
    }
  }

  lemma AckedIsBacked(s: State, e: Event, id: JobId, i: nat)
    requires Inv(s) && Enabled(s, e) && i in Do(s, e).broker.acked && i !in s.broker.acked && IsEntryOf(s.broker, i, id)
    ensures e.Exec? && IsInPipe(s, e.task) && Backs(s.tasks[e.task], i) && Cleared(s.tasks[e.task], i)
    ensures Do(s, e).broker.markers == s.broker.markers
  {
    assert TaskInv(s, s.tasks[e.task]);
  }

  lemma BackedStep(s: State, e: Event, id: JobId, i: nat)
    requires Inv(s) && Safe(s, id) && Backed(s, id, i) && Enabled(s, e) && !Expires(e, id) && IsEntryOf(s.broker, i, id)
    ensures Backed(Do(s, e), id, i)
  {
    SafeBroker(s, e, id);
    forall u | u in Do(s, e).tasks && Backs(Do(s, e).tasks[u], i) ensures id in Do(s, e).broker.results {
      BackedTask(s, e, id, i, u);
    }
    if i in Do(s, e).broker.acked && i !in s.broker.acked {
      AckedIsBacked(s, e, id, i);
    }
  }

  /** An entry that was not delivered yet has no pipe. */
  lemma UndeliveredIsBacked(s: State, id: JobId, i: nat)
    requires Inv(s) && s.broker.delivered <= i
    ensures Backed(s, id, i) && forall t | t in s.tasks :: !Cleared(s.tasks[t], i)
  {
    forall t | t in s.tasks ensures !Backs(s.tasks[t], i) {
      assert TaskInv(s, s.tasks[t]);
    }
  }

  // ----- claims that are left over -----

  predicate IsClaim(task: Task, id: JobId) {
    InPipe(task) && task.pipe.Claim? && task.pipe.request.jobId == id
  }

  /** No SET NX of the id is left to be executed. */
  predicate Claimed(s: State, id: JobId) {
    forall t | t in s.tasks :: !IsClaim(s.tasks[t], id)
  }

  lemma ClaimedBroker(s: State, e: Event, id: JobId)
    requires Inv(s) && Claimed(s, id) && Enabled(s, e) && !Expires(e, id)
    ensures !Executes(s, e, SetMarkerNX(id))
    ensures id in Do(s, e).broker.markers <==> id in s.broker.markers && !Executes(s, e, DelMarker(id))
  {
    assert e.Exec? ==> !IsClaim(s.tasks[e.task], id);
  }

  lemma ClaimedStep(s: State, e: Event, id: JobId)
    requires Inv(s) && Claimed(s, id) && Enabled(s, e) && !Submits(e, id)
    ensures Claimed(Do(s, e), id)
  {
    assert (e.Exec? || e.Break?) ==> !IsClaim(s.tasks[e.task], id);
    assert e.Break? ==> TaskInv(s, s.tasks[e.task]);
  }

  /** The marker is gone from the moment the pipe of entry i deleted it, when no claim is left over. */
  ghost predicate Gone(s: State, id: JobId, i: nat) {
    && (forall t | t in s.tasks && Cleared(s.tasks[t], i) :: id !in s.broker.markers)
    && (i in s.broker.acked ==> id !in s.broker.markers)
  }

  lemma GoneTask(s: State, e: Event, id: JobId, i: nat, u: nat)
    requires Inv(s) && Claimed(s, id) && Gone(s, id, i) && Enabled(s, e) && !Expires(e, id)
    requires IsEntryOf(s.broker, i, id)
    requires u in Do(s, e).tasks && Cleared(Do(s, e).tasks[u], i)
    ensures id !in Do(s, e).broker.markers
  {
    ClaimedBroker(s, e, id);
    if Actor(e).Some? {
      assert TaskInv(s, s.tasks[e.task]);
    }
  }

  lemma GoneStep(s: State, e: Event, id: JobId, i: nat)
    requires Inv(s) && Claimed(s, id) && Gone(s, id, i) && Enabled(s, e) && !Expires(e, id)
    requires IsEntryOf(s.broker, i, id)
    ensures Gone(Do(s, e), id, i)
  {
    ClaimedBroker(s, e, id);
    forall u | u in Do(s, e).tasks && Cleared(Do(s, e).tasks[u], i) ensures id !in Do(s, e).broker.markers {
      GoneTask(s, e, id, i, u);
    }
    if i in Do(s, e).broker.acked && i !in s.broker.acked {
      AckedIsBacked(s, e, id, i);
    }
  }

  lemma {:induction false} FinishedAlong(ss: seq<State>, es: seq<Event>, q: nat, k: nat, id: JobId, i: nat)
    requires Run(ss, es) && Inv(ss[0]) && q <= k < |ss| && Safe(ss[q], id) && IsEntryOf(ss[q].broker, i, id)
    requires Backed(ss[q], id, i) && (Claimed(ss[q], id) ==> Gone(ss[q], id, i))
    requires forall j | q <= j < k :: !Expires(es[j], id) && !Submits(es[j], id)
    ensures Safe(ss[k], id) && Backed(ss[k], id, i)
    ensures Claimed(ss[q], id) ==> Claimed(ss[k], id) && Gone(ss[k], id, i)
  {
    if q < k {
      FinishedAlong(ss, es, q, k - 1, id, i);
      RunKeepsInv(ss, es, k - 1);
      StreamGrows(ss, es, q, k - 1);
      SafeStep(ss[k - 1], es[k - 1], id);
      BackedStep(ss[k - 1], es[k - 1], id, i);
      if Claimed(ss[q], id) {
        ClaimedStep(ss[k - 1], es[k - 1], id);
        GoneStep(ss[k - 1], es[k - 1], id, i);
      }
    }
  }
}
