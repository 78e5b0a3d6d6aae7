/**
 What another submission of an id does to its job: an unfinished one it can lose for good, and a finished
 one it starts again.
 */
module ClusterResubmission {
  import opened Redis
  import opened Cluster
  import opened ClusterRuns
  import opened ClusterRecovery
  import opened ClusterVisibility
  import opened ClusterKnown

  /** The second enqueue, up to its SET NX, which finds a marker. */
  lemma SubmitInVain(s: State, ss: seq<State>, es: seq<Event>, request: Request)
    returns (ss': seq<State>, es': seq<Event>, v: nat)
    requires Path(Faultless(), s, ss, es) && request.jobId in ss[|es|].broker.markers
    ensures Path(Faultless(), s, ss', es')
    ensures var before, after := ss[|es|], ss'[|es'|];
            && after.broker == before.broker.(results := before.broker.results - {request.jobId})
            && v !in before.tasks && after.tasks == before.tasks[v := Answered(request, Duplicate)]
  {
    var before := ss[|es|];
    v := FreshTask(before.tasks.Keys);
    ss', es' := Walk(Faultless(), s, ss, es, Submit(v, request));
    ss', es' := Walk(Faultless(), s, ss', es', Exec(v, true));
    assert ss'[|es'|].tasks == before.tasks[v := Flight(Claim(request), 1)];
    ss', es' := Walk(Faultless(), s, ss', es', Exec(v, true));
  }

  /** The job of entry i is lost: the entry is acked, neither key is there, and the enqueue v that could
      wait for it was told Duplicate. */
  predicate Lost(s: State, id: JobId, i: nat, v: nat) {
    && i in s.broker.acked && !Live(s, id)
    && v in s.tasks && s.tasks[v].Answered? && s.tasks[v].request.jobId == id && s.tasks[v].outcome == Duplicate
  }

  /** The publisher's DEL and XACK. */
  lemma FinishReport(s: State, ss: seq<State>, es: seq<Event>, id: JobId, i: nat, t: nat)
    returns (ss': seq<State>, es': seq<Event>)
    requires Path(Faultless(), s, ss, es) && AboutToClear(ss[|es|], t, id) && i in ss[|es|].broker.pel
    requires ss[|es|].tasks[t].Flight? && ReportsEntry(ss[|es|].tasks[t], i)
    ensures Path(Faultless(), s, ss', es')
    ensures var before, after := ss[|es|], ss'[|es'|];
            && after.broker.results == before.broker.results && after.broker.markers == before.broker.markers - {id}
            && i in after.broker.acked
            && forall u | u in before.tasks && u != t :: u in after.tasks && after.tasks[u] == before.tasks[u]
  {
    ss', es' := Walk(Faultless(), s, ss, es, Exec(t, true));
    ss', es' := Walk(Faultless(), s, ss', es', Exec(t, true));
  }

  /** Another submission of an unfinished job's id, at any reachable state, can lose the job for good
      without any fault: its DEL falls between the SET and the DEL of the job's report, its SET NX still
      finds the marker, and then the report takes the marker away and acks the entry. */
  lemma ResubmissionLoses(ss: seq<State>, es: seq<Event>, k: nat, id: JobId, i: nat)
    requires RunFromInit(ss, es) && k < |ss| && id in ss[k].broker.markers && i !in ss[k].broker.acked
    requires ss[k].broker.born <= i && ss[k].broker.floor <= i && IsEntryOf(ss[k].broker, i, id)
    ensures exists ss': seq<State>, es': seq<Event>, v: nat ::
              Path(Faultless(), ss[k], ss', es') && v !in ss[k].tasks && Lost(ss'[|es'|], id, i, v)
  {
    InitInv(ss[0]);
    RunKeepsInv(ss, es, k);
    var s, request := ss[k], ss[k].broker.stream[i].request;
    var ss', es' := DeliverUpTo(Faultless(), s, id, i);
    var t, v;
    ss', es', t := SweepUpTo(Faultless(), s, ss', es', id, i);
    ss', es', v := SubmitInVain(s, ss', es', request);
    ss', es' := FinishReport(s, ss', es', id, i, t);
    assert Lost(ss'[|es'|], id, i, v);
  }

  /** The job of entry i can get lost in a future without expiry, in which the id is submitted again only
      if `resubmissions` says so. */
  ghost predicate CanBeLost(s: State, id: JobId, i: nat, resubmissions: bool) {
    exists ss: seq<State>, es: seq<Event> ::
      Run(ss, es) && ss[0] == s && i in ss[|es|].broker.acked && !Live(ss[|es|], id)
      && forall j | 0 <= j < |es| :: !Expires(es[j], id) && (Submits(es[j], id) ==> resubmissions)
  }

  /** An unfinished job in a safe state can get lost exactly if its id is submitted again. */
  lemma LostIffResubmitted(ss: seq<State>, es: seq<Event>, k: nat, id: JobId, i: nat, resubmissions: bool)
    requires RunFromInit(ss, es) && k < |ss| && Safe(ss[k], id) && id in ss[k].broker.markers
    requires i !in ss[k].broker.acked
    requires ss[k].broker.born <= i && ss[k].broker.floor <= i && IsEntryOf(ss[k].broker, i, id)
    ensures CanBeLost(ss[k], id, i, resubmissions) <==> resubmissions
  {
    if resubmissions {
      ResubmissionLoses(ss, es, k, id, i);
      var ss', es', v :| Path(Faultless(), ss[k], ss', es') && v !in ss[k].tasks && Lost(ss'[|es'|], id, i, v);
      assert forall j | 0 <= j < |es'| :: Faultless()(ss'[j], es'[j]) && !Expires(es'[j], id);
    } else if CanBeLost(ss[k], id, i, resubmissions) {
      InitInv(ss[0]);
      RunKeepsInv(ss, es, k);
      var ss': seq<State>, es': seq<Event> :|
        Run(ss', es') && ss'[0] == ss[k] && i in ss'[|es'|].broker.acked && !Live(ss'[|es'|], id)
        && forall j | 0 <= j < |es'| :: !Expires(es'[j], id) && (Submits(es'[j], id) ==> resubmissions);
      SafeAlong(ss', es', 0, |es'|, id);
    }
  }

  lemma ReclaimingRun(s: State, request: Request) returns (ss: seq<State>, es: seq<Event>, v: nat)
    requires request.jobId !in s.broker.markers
    ensures Path(Faultless(), s, ss, es) && |es| == 3 && v !in s.tasks && es[0] == Submit(v, request)
    ensures var b := s.broker.(results := s.broker.results - {request.jobId});
            && ss[2].broker == b && ss[3].tasks == s.tasks[v := Flight(Append(request), 0)]
            && ss[3].broker == b.(markers := b.markers + {request.jobId})
  {
    v := FreshTask(s.tasks.Keys);
    ss, es := Walk(Faultless(), s, [s], [], Submit(v, request));
    ss, es := Walk(Faultless(), s, ss, es, Exec(v, true));
    ss, es := Walk(Faultless(), s, ss, es, Exec(v, true));
  }

  lemma RestartingRun(s: State, request: Request) returns (ss: seq<State>, es: seq<Event>, v: nat)
    requires request.jobId !in s.broker.markers
    ensures Path(Faultless(), s, ss, es) && |es| == 4 && v !in s.tasks && es[0] == Submit(v, request)
    ensures var b := s.broker.(results := s.broker.results - {request.jobId});
            && ss[2].broker == b && ss[4].tasks == s.tasks[v := Answered(request, Queued)]
            && ss[4].broker == b.(markers := b.markers + {request.jobId}, stream := b.stream + [Job(request)])
  {
    ss, es, v := ReclaimingRun(s, request);
    ss, es := Walk(Faultless(), s, ss, es, Exec(v, true));
  }

  /** Another submission of a job without a marker starts it again: its result is deleted, for a moment
      nothing is known of it, and then it is queued like a new one. */
  lemma ResubmissionRestarts(s: State, request: Request)
    requires request.jobId !in s.broker.markers
    ensures exists ss: seq<State>, es: seq<Event>, v: nat ::
              Path(Faultless(), s, ss, es) && |es| == 4 && v !in s.tasks && es[0] == Submit(v, request)
              && !Live(ss[2], request.jobId) && IsQueued(ss[4], v, request.jobId)
              && ss[4].broker == s.broker.(results := s.broker.results - {request.jobId},
                                           markers := s.broker.markers + {request.jobId},
                                           stream := s.broker.stream + [Job(request)])
  {
    var ss, es, v := RestartingRun(s, request);
  }
}
