/**
 Exactly when a queued job stays known without being submitted again: if and only if its state is safe
 at the moment its enqueue returns, whatever its id has gone through before.
 */
module ClusterKnown {
  import opened Prelude
  import opened Redis
  import opened Cluster
  import opened ClusterRuns
  import opened ClusterRecovery
  import opened ClusterVisibility

  /** Anything but an expiry or a submission of the id. */
  function Unprompted(id: JobId): (State, Event) -> bool {
    (s: State, e: Event) => !Expires(e, id) && !Submits(e, id)
  }

  /** Result or marker is there in every continuation. */
  ghost predicate StaysKnown(s: State, id: JobId) {
    forall ss: seq<State>, es: seq<Event> :: Path(Unprompted(id), s, ss, es) ==> Live(ss[|es|], id)
  }

  lemma SafeStaysKnown(s: State, id: JobId)
    requires Inv(s) && Safe(s, id)
    ensures StaysKnown(s, id)
  {
    forall ss: seq<State>, es: seq<Event> | Path(Unprompted(id), s, ss, es) ensures Live(ss[|es|], id) {
      assert forall j | 0 <= j < |es| :: Unprompted(id)(ss[j], es[j]);
      SafeAlong(ss, es, 0, |es|, id);
    }
  }

  // ----- what undermines a job can lose it -----

  /** The next command of task t deletes the marker of `id`. */
  predicate AboutToClear(s: State, t: nat, id: JobId) {
    IsInPipe(s, t) && Head(s.tasks[t]) == DelMarker(id)
  }

  /** The client of a broken connection starts a re-ack again, and rolls back a failed append. */
  lemma BreakingClears(s: State, id: JobId, t: nat)
    requires Inv(s) && t in s.tasks && Undermines(s.tasks[t], id, false) && !s.tasks[t].pipe.Claim?
    ensures AboutToClear(s, t, id)
         || (Enabled(s, Break(t, None)) && AboutToClear(Do(s, Break(t, None)), t, id)
             && Do(s, Break(t, None)).broker == s.broker)
  {
    assert TaskInv(s, s.tasks[t]);
  }

  /** Without a stored result the marker's deletion loses the job. */
  lemma ClearingLoses(s: State, id: JobId, t: nat)
    requires Inv(s) && id !in s.broker.results && t in s.tasks && Undermines(s.tasks[t], id, false)
    requires !s.tasks[t].pipe.Claim?
    ensures !StaysKnown(s, id)
  {
    BreakingClears(s, id, t);
    var ss, es := [s], [];
    if !AboutToClear(s, t, id) {
      ss, es := Walk(Unprompted(id), s, ss, es, Break(t, None));
    }
    ss, es := Walk(Unprompted(id), s, ss, es, Exec(t, true));
    assert !Live(ss[|es|], id);
  }

  /** The sweep takes a pending entry of `id` up to the point where its marker goes. */
  lemma SweepUpTo(may: (State, Event) -> bool, s: State, ss: seq<State>, es: seq<Event>, id: JobId, i: nat)
    returns (ss': seq<State>, es': seq<Event>, t: nat)
    requires Path(may, s, ss, es) && Inv(ss[|es|])
    requires forall s: State, e: Event | Faultless()(s, e) && !e.Submit? :: may(s, e)
    requires i in ss[|es|].broker.pel && ss[|es|].broker.floor <= i && IsEntryOf(ss[|es|].broker, i, id)
    ensures Path(may, s, ss', es')
    ensures var before, after := ss[|es|], ss'[|es'|];
            && AboutToClear(after, t, id) && id in after.broker.results
            && after.broker.markers == before.broker.markers && after.broker.pel == before.broker.pel
            && after.tasks[t].Flight? && ReportsEntry(after.tasks[t], i)
            && t !in before.tasks
            && forall u | u in before.tasks :: u in after.tasks && after.tasks[u] == before.tasks[u]
  {
    t := FreshTask(ss[|es|].tasks.Keys);
    ss', es' := Walk(may, s, ss, es, Autoclaim(t, i));
    ss', es' := Walk(may, s, ss', es', Inspect(t, true));
    if ss'[|es'|].tasks[t].Running? {
      ss', es' := Walk(may, s, ss', es', Finish(t, JobResult(id, "")));
      ss', es' := Walk(may, s, ss', es', Exec(t, true));
    }
  }

  predicate ReportsEntry(task: Task, i: nat) {
    (task.Flight? || task.Stray?) && (task.pipe.Report? || task.pipe.Reack?) && task.pipe.msg == i
  }

  /** Everything is delivered, and an unfinished entry is on the pending list. */
  lemma DeliverUpTo(may: (State, Event) -> bool, s: State, id: JobId, i: nat) returns (ss: seq<State>, es: seq<Event>)
    requires Inv(s) && s.broker.born <= i && s.broker.floor <= i && IsEntryOf(s.broker, i, id) && i !in s.broker.acked
    requires forall s: State, e: Event | Faultless()(s, e) && !e.Submit? :: may(s, e)
    ensures Path(may, s, ss, es) && Inv(ss[|es|]) && OnlyDelivered(s, ss[|es|])
    ensures i in ss[|es|].broker.pel && ss[|es|].broker.floor <= i && IsEntryOf(ss[|es|].broker, i, id)
  {
    var judge: Judge := (request: Request) => "";
    var mid;
    ss, es, mid := DeliverAll(judge, s, [s], [], s, 0);
    LeadsKeepsInv(judge, s, ss, es, mid, |es|);
    forall j | 0 <= j < |es| ensures may(ss[j], es[j]) {
      assert ByWorker(judge)(ss[j], es[j]);
    }
    assert i in mid.broker.pel || i in mid.broker.acked;
  }

  /** A claim whose DEL is still to be executed can let it fall between the SET and the DEL of the job's
      own report. */
  lemma LateClaimRun(s: State, id: JobId, i: nat, t: nat) returns (ss: seq<State>, es: seq<Event>)
    requires Inv(s) && s.broker.delivered <= i && s.broker.floor <= i && IsEntryOf(s.broker, i, id)
    requires t in s.tasks && Undermines(s.tasks[t], id, true) && id in s.broker.markers
    ensures Path(Unprompted(id), s, ss, es) && !Live(ss[|es|], id)
  {
    var u;
    ss, es := DeliverUpTo(Unprompted(id), s, id, i);
    ss, es, u := SweepUpTo(Unprompted(id), s, ss, es, id, i);
    ss, es := Walk(Unprompted(id), s, ss, es, Exec(t, true));
    ss, es := Walk(Unprompted(id), s, ss, es, Exec(u, true));
  }

  lemma LateClaimLoses(s: State, id: JobId, i: nat, t: nat)
    requires Inv(s) && s.broker.delivered <= i && s.broker.floor <= i && IsEntryOf(s.broker, i, id)
    requires t in s.tasks && Undermines(s.tasks[t], id, true)
    ensures !StaysKnown(s, id)
  {
    if id in s.broker.markers {
      var ss, es := LateClaimRun(s, id, i, t);
    } else {
      var ss, es := Walk(Unprompted(id), s, [s], [], Exec(t, true));
      assert !Live(ss[|es|], id);
    }
  }

  /** A job whose entry was just added stays known exactly if result or marker is there and no task
      undermines it: no claim with its DEL still to come and, without a stored result, no report, re-ack
      or failing enqueue that is past relying on one. */
  lemma StaysKnownIff(s: State, id: JobId, i: nat)
    requires Inv(s) && s.broker.delivered <= i && s.broker.floor <= i && IsEntryOf(s.broker, i, id)
    ensures StaysKnown(s, id) <==> Safe(s, id)
  {
    if Safe(s, id) {
      SafeStaysKnown(s, id);
    } else if !Live(s, id) {
      assert Path(Unprompted(id), s, [s], []);
    } else {
      var t :| t in s.tasks && Undermines(s.tasks[t], id, id in s.broker.results);
      if s.tasks[t].pipe.Claim? {
        LateClaimLoses(s, id, i, t);
      } else {
        ClearingLoses(s, id, t);
      }
    }
  }

  // ----- jobs that return Queued -----

  /** At event k the XADD of the enqueue t of `id` is answered: it returns Queued. */
  predicate Queues(ss: seq<State>, es: seq<Event>, k: nat, t: nat, id: JobId) {
    && k < |es| < |ss| && es[k] == Exec(t, true) && t in ss[k].tasks && ss[k].tasks[t].Flight?
    && ss[k].tasks[t].done == 0 && ss[k].tasks[t].pipe.Append? && ss[k].tasks[t].pipe.request.jobId == id
  }

  lemma QueuedEntry(ss: seq<State>, es: seq<Event>, k: nat, t: nat, id: JobId)
    requires RunFromInit(ss, es) && Queues(ss, es, k, t, id)
    ensures var i := |ss[k].broker.stream|;
            && Inv(ss[k + 1]) && IsQueued(ss[k + 1], t, id) && IsEntryOf(ss[k + 1].broker, i, id)
            && ss[k + 1].broker.delivered <= i && ss[k + 1].broker.floor <= i
  {
    InitInv(ss[0]);
    RunKeepsInv(ss, es, k);
    RunKeepsInv(ss, es, k + 1);
    assert ss[k + 1] == Do(ss[k], es[k]);
  }

  /** Result or marker, exactly: from the moment its enqueue returned Queued, a job keeps its result or
      its marker after every single command, under crashes, broken pipes, re-runs and late commands of
      broken connections, until a key expires or the id is submitted again, if and only if that moment's
      state is safe. Earlier submissions, results and expiries of the id are arbitrary. */
  lemma ResultOrMarkerIff(ss: seq<State>, es: seq<Event>, k: nat, t: nat, id: JobId)
    requires RunFromInit(ss, es) && Queues(ss, es, k, t, id)
    ensures StaysKnown(ss[k + 1], id) <==> Safe(ss[k + 1], id)
  {
    QueuedEntry(ss, es, k, t, id);
    StaysKnownIff(ss[k + 1], id, |ss[k].broker.stream|);
  }

  /** Finished means visible: once the entry of a job that was safe when it was queued is acked, GET
      /result finds the result, and no marker unless a claim of an earlier submission was left over. */
  lemma AckedIsVisible(ss: seq<State>, es: seq<Event>, k: nat, n: nat, t: nat, id: JobId)
    requires RunFromInit(ss, es) && Queues(ss, es, k, t, id) && k < n < |ss| && Safe(ss[k + 1], id)
    requires forall j | k < j < n :: !Expires(es[j], id) && !Submits(es[j], id)
    requires |ss[k].broker.stream| in ss[n].broker.acked
    ensures id in ss[n].broker.results
    ensures Claimed(ss[k + 1], id) ==> id !in ss[n].broker.markers
  {
    var i := |ss[k].broker.stream|;
    QueuedEntry(ss, es, k, t, id);
    InitInv(ss[0]);
    UndeliveredIsBacked(ss[k + 1], id, i);
    FinishedAlong(ss, es, k + 1, n, id, i);
  }
}
