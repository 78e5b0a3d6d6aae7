/**
 Concrete runs that show where the theorems about the cluster end: a healthy job that is not found, a
 job that runs twice, results that a second submission loses, and markers that nobody clears.
 */
module ClusterRaces {
  import opened Prelude
  import opened Redis
  import opened Cluster
  import opened ClusterRuns
  import opened ClusterVisibility
  import opened ClusterSubmission
  import opened ClusterMarkers

  const EMPTY_STATE := State(Broker(map[], {}, [], 0, 0, 0, {}, {}, {}), map[], {})

  /** Any step. */
  function AnyStep(): (State, Event) -> bool {
    (s: State, e: Event) => true
  }

  /** A request is queued on an empty cluster. */
  lemma QueueingRun(request: Request) returns (ss: seq<State>, es: seq<Event>)
    ensures Path(Faultless(), EMPTY_STATE, ss, es)
    ensures es == [Submit(0, request), Exec(0, true), Exec(0, true), Exec(0, true)]
    ensures ss[4] == State(Broker(map[], {request.jobId}, [Job(request)], 0, 0, 0, {}, {}, {}),
                           map[0 := Answered(request, Queued)], {})
  {
    ss, es := [EMPTY_STATE], [];
    ss, es := Walk(Faultless(), EMPTY_STATE, ss, es, Submit(0, request));
    assert ss[1] == State(EMPTY_STATE.broker, map[0 := Flight(Claim(request), 0)], {});
    ss, es := Walk(Faultless(), EMPTY_STATE, ss, es, Exec(0, true));
    assert ss[2] == State(EMPTY_STATE.broker, map[0 := Flight(Claim(request), 1)], {});
    ss, es := Walk(Faultless(), EMPTY_STATE, ss, es, Exec(0, true));
    assert ss[3] == State(EMPTY_STATE.broker.(markers := {request.jobId}), map[0 := Flight(Append(request), 0)], {});
    ss, es := Walk(Faultless(), EMPTY_STATE, ss, es, Exec(0, true));
  }

  /** ... delivered ... */
  lemma DeliveringRun(request: Request) returns (ss: seq<State>, es: seq<Event>)
    ensures Path(Faultless(), EMPTY_STATE, ss, es)
    ensures es == [Submit(0, request), Exec(0, true), Exec(0, true), Exec(0, true), Deliver(1)]
    ensures IsQueued(ss[4], 0, request.jobId) && request.jobId !in ss[4].broker.results
    ensures ss[5] == State(Broker(map[], {request.jobId}, [Job(request)], 0, 0, 1, {0}, {}, {}),
                           map[0 := Answered(request, Queued), 1 := Running(0, request)], {})
  {
    ss, es := QueueingRun(request);
    ss, es := Walk(Faultless(), EMPTY_STATE, ss, es, Deliver(1));
  }

  /** ... and run, and the report's SET is executed. */
  lemma PublishingRun(request: Request, result: JobResult) returns (ss: seq<State>, es: seq<Event>)
    requires request.jobId == result.jobId
    ensures Path(Faultless(), EMPTY_STATE, ss, es)
    ensures es == [Submit(0, request), Exec(0, true), Exec(0, true), Exec(0, true),
                   Deliver(1), Finish(1, result), Exec(1, true)]
    ensures IsQueued(ss[4], 0, request.jobId) && request.jobId !in ss[4].broker.results
    ensures ss[7] == State(Broker(map[request.jobId := result], {request.jobId}, [Job(request)],
                                  0, 0, 1, {0}, {}, {request.jobId}),
                           map[0 := Answered(request, Queued), 1 := Flight(Report(0, request, result), 1)],
                           {(request, result)})
  {
    ss, es := DeliveringRun(request);
    var b, tasks := ss[5].broker, ss[5].tasks;
    ss, es := Walk(Faultless(), EMPTY_STATE, ss, es, Finish(1, result));
    assert ss[6] == State(b, tasks[1 := Flight(Report(0, request, result), 0)], {(request, result)});
    ss, es := Walk(Faultless(), EMPTY_STATE, ss, es, Exec(1, true));
  }

  lemma FirstIsQuiet(ss: seq<State>, es: seq<Event>, k: nat, request: Request)
    requires Run(ss, es) && ss[0] == EMPTY_STATE && 0 < k <= |es| && es[0] == Submit(0, request)
    requires forall j | 0 < j < k :: !Submits(es[j], request.jobId) && !Expires(es[j], request.jobId)
    ensures QuietSubmission(ss, es, 0, k, request.jobId)
  {
  }

  /** GET /result does answer 404 for a healthy job: a faultless run reads no result, and then,
      after the publish, no marker. */
  lemma NotFoundHappens(request: Request, result: JobResult)
    requires request.jobId == result.jobId
    ensures exists ss: seq<State>, es: seq<Event>, a: nat, b: nat ::
              Path(Faultless(), EMPTY_STATE, ss, es) && 0 <= a < b <= |es|
              && QuietSubmission(ss, es, 0, b, request.jobId) && IsQueued(ss[a], es[0].task, request.jobId)
              && request.jobId !in ss[a].broker.results && request.jobId !in ss[b].broker.markers
  {
    var ss, es := PublishingRun(request, result);
    ss, es := Walk(Faultless(), EMPTY_STATE, ss, es, Exec(1, true));
    FirstIsQuiet(ss, es, 8, request);
    assert IsQueued(ss[4], es[0].task, request.jobId) && request.jobId !in ss[8].broker.markers;
  }

  /** Duplicate execution without any fault: the sweep claims the entry of a slow live job, finds no
      result, and runs it a second time while the first run goes on. */
  lemma JobRunsTwice(request: Request, first: JobResult, second: JobResult)
    requires request.jobId == first.jobId == second.jobId
    ensures exists ss: seq<State>, es: seq<Event> ::
              Path(Faultless(), EMPTY_STATE, ss, es) && |es| == 9
              && Finishes(ss[7], es[7], request, first) && Finishes(ss[8], es[8], request, second)
              && es[7].task != es[8].task && ss[7].tasks[es[7].task] == ss[7].tasks[es[8].task] == Running(0, request)
  {
    var ss, es := DeliveringRun(request);
    var b, tasks := ss[5].broker, ss[5].tasks;
    ss, es := Walk(Faultless(), EMPTY_STATE, ss, es, Autoclaim(2, 0));
    assert ss[6] == State(b, tasks[2 := Swept(0)], {});
    ss, es := Walk(Faultless(), EMPTY_STATE, ss, es, Inspect(2, true));
    assert ss[7] == State(b, tasks[2 := Running(0, request)], {});
    ss, es := Walk(Faultless(), EMPTY_STATE, ss, es, Finish(1, first));
    assert ss[8].tasks == tasks[1 := Flight(Report(0, request, first), 0)][2 := Running(0, request)];
    ss, es := Walk(Faultless(), EMPTY_STATE, ss, es, Finish(2, second));
  }

  // ----- results that a second submission loses -----

  lemma DuplicateRun(request: Request, result: JobResult) returns (ss: seq<State>, es: seq<Event>)
    requires request.jobId == result.jobId
    ensures Path(Faultless(), EMPTY_STATE, ss, es) && |es| == 10 && IsQueued(ss[4], 0, request.jobId)
    ensures ss[10].broker == Broker(map[], {request.jobId}, [Job(request)], 0, 0, 1, {0}, {}, {request.jobId})
    ensures ss[10].tasks == map[0 := Answered(request, Queued), 1 := Flight(Report(0, request, result), 1),
                                2 := Answered(request, Duplicate)]
  {
    ss, es := PublishingRun(request, result);
    var b, tasks := ss[7].broker, ss[7].tasks;
    ss, es := Walk(Faultless(), EMPTY_STATE, ss, es, Submit(2, request));
    ss, es := Walk(Faultless(), EMPTY_STATE, ss, es, Exec(2, true));
    assert ss[9].broker == b.(results := map[]) && ss[9].tasks == tasks[2 := Flight(Claim(request), 1)];
    ss, es := Walk(Faultless(), EMPTY_STATE, ss, es, Exec(2, true));
  }

  lemma LosingRun(request: Request, result: JobResult) returns (ss: seq<State>, es: seq<Event>)
    requires request.jobId == result.jobId
    ensures Path(Faultless(), EMPTY_STATE, ss, es) && |es| == 12 && IsQueued(ss[4], 0, request.jobId)
    ensures ss[12].broker == Broker(map[], {}, [Job(request)], 0, 0, 1, {}, {0}, {request.jobId})
  {
    ss, es := DuplicateRun(request, result);
    var b := ss[10].broker;
    ss, es := Walk(Faultless(), EMPTY_STATE, ss, es, Exec(1, true));
    assert ss[11].broker == b.(markers := {}) && ss[11].tasks[1] == Flight(Report(0, request, result), 2);
    ss, es := Walk(Faultless(), EMPTY_STATE, ss, es, Exec(1, true));
  }

  /** A second enqueue of the id loses the result for good, without any fault: its DEL falls between the
      publisher's SET and DEL, its SET NX still finds the marker, and the entry is acked with neither
      key left. */
  lemma SecondEnqueueLosesResult(request: Request, result: JobResult)
    requires request.jobId == result.jobId
    ensures exists ss: seq<State>, es: seq<Event> ::
              Path(Faultless(), EMPTY_STATE, ss, es) && |es| == 12 && IsQueued(ss[4], 0, request.jobId)
              && ss[12].broker == Broker(map[], {}, [Job(request)], 0, 0, 1, {}, {0}, {request.jobId})
  {
    var ss, es := LosingRun(request, result);
  }

  /** The sweep decides to re-ack while the publisher is between its SET and its DEL ... */
  lemma InspectedRun(request: Request, result: JobResult) returns (ss: seq<State>, es: seq<Event>)
    requires request.jobId == result.jobId
    ensures Path(Faultless(), EMPTY_STATE, ss, es) && |es| == 9
    ensures ss[9].broker == Broker(map[request.jobId := result], {request.jobId}, [Job(request)],
                                   0, 0, 1, {0}, {}, {request.jobId})
    ensures ss[9].tasks == map[0 := Answered(request, Queued), 1 := Flight(Report(0, request, result), 1),
                               2 := Flight(Reack(0, request.jobId), 0)]
  {
    ss, es := PublishingRun(request, result);
    var b, tasks := ss[7].broker, ss[7].tasks;
    ss, es := Walk(Faultless(), EMPTY_STATE, ss, es, Autoclaim(2, 0));
    assert ss[8].broker == b && ss[8].tasks == tasks[2 := Swept(0)];
    ss, es := Walk(Faultless(), EMPTY_STATE, ss, es, Inspect(2, true));
  }

  /** ... the publisher finishes first ... */
  lemma LateReackRun(request: Request, result: JobResult) returns (ss: seq<State>, es: seq<Event>)
    requires request.jobId == result.jobId
    ensures Path(Faultless(), EMPTY_STATE, ss, es) && |es| == 11
    ensures ss[11].broker == Broker(map[request.jobId := result], {}, [Job(request)], 0, 0, 1, {}, {0}, {request.jobId})
    ensures ss[11].tasks == map[0 := Answered(request, Queued), 1 := Flight(Report(0, request, result), 3),
                                2 := Flight(Reack(0, request.jobId), 0)]
  {
    ss, es := InspectedRun(request, result);
    var b, tasks := ss[9].broker, ss[9].tasks;
    ss, es := Walk(Faultless(), EMPTY_STATE, ss, es, Exec(1, true));
    assert ss[10].broker == b.(markers := {}) && ss[10].tasks == tasks[1 := Flight(Report(0, request, result), 2)];
    ss, es := Walk(Faultless(), EMPTY_STATE, ss, es, Exec(1, true));
  }

  /** ... the id is claimed again ... */
  lemma ReclaimedRun(request: Request, result: JobResult) returns (ss: seq<State>, es: seq<Event>)
    requires request.jobId == result.jobId
    ensures Path(Faultless(), EMPTY_STATE, ss, es) && |es| == 14
    ensures ss[11].broker.acked == {0} && ss[11].broker.stream == [Job(request)]
    ensures es[11..] == [Submit(3, request), Exec(3, true), Exec(3, true)]
    ensures ss[14].broker == Broker(map[], {request.jobId}, [Job(request)], 0, 0, 1, {}, {0}, {request.jobId})
    ensures ss[14].tasks == map[0 := Answered(request, Queued), 1 := Flight(Report(0, request, result), 3),
                                2 := Flight(Reack(0, request.jobId), 0), 3 := Flight(Append(request), 0)]
  {
    ss, es := LateReackRun(request, result);
    var b, tasks := ss[11].broker, ss[11].tasks;
    ss, es := Walk(Faultless(), EMPTY_STATE, ss, es, Submit(3, request));
    assert ss[12].broker == b && ss[12].tasks == tasks[3 := Flight(Claim(request), 0)];
    ss, es := Walk(Faultless(), EMPTY_STATE, ss, es, Exec(3, true));
    assert ss[13].broker == b.(results := map[]) && ss[13].tasks == tasks[3 := Flight(Claim(request), 1)];
    ss, es := Walk(Faultless(), EMPTY_STATE, ss, es, Exec(3, true));
  }

  /** ... and queued again, and then the late re-ack deletes the new marker. */
  lemma LosingJobRun(request: Request, result: JobResult) returns (ss: seq<State>, es: seq<Event>)
    requires request.jobId == result.jobId
    ensures Path(Faultless(), EMPTY_STATE, ss, es) && |es| == 16
    ensures ss[11].broker.acked == {0} && ss[11].broker.stream == [Job(request)]
    ensures es[11..] == [Submit(3, request), Exec(3, true), Exec(3, true), Exec(3, true), Exec(2, true)]
    ensures IsQueued(ss[15], 3, request.jobId)
    ensures ss[16].broker == Broker(map[], {}, [Job(request), Job(request)], 0, 0, 1, {}, {0}, {request.jobId})
  {
    ss, es := ReclaimedRun(request, result);
    var b, tasks := ss[14].broker, ss[14].tasks;
    ss, es := Walk(Faultless(), EMPTY_STATE, ss, es, Exec(3, true));
    assert ss[15].broker == b.(stream := [Job(request), Job(request)]);
    assert ss[15].tasks == tasks[3 := Answered(request, Queued)];
    ss, es := Walk(Faultless(), EMPTY_STATE, ss, es, Exec(2, true));
  }

  /** A job submitted again after it was finished can become unknown without any third submission: a
      re-ack left over from the first one deletes the second one's marker while its entry is not even
      delivered. The state in which the second one is queued is not safe, as ResultOrMarkerIff says. */
  lemma LateReackLosesJob(request: Request, result: JobResult)
    requires request.jobId == result.jobId
    ensures exists ss: seq<State>, es: seq<Event> ::
              Path(Faultless(), EMPTY_STATE, ss, es) && |es| == 16
              && es[11..] == [Submit(3, request), Exec(3, true), Exec(3, true), Exec(3, true), Exec(2, true)]
              && ss[11].broker.acked == {0} && ss[11].broker.stream == [Job(request)]
              && IsQueued(ss[15], 3, request.jobId) && !Live(ss[16], request.jobId)
              && ss[16].broker.delivered == 1 && ss[16].broker.stream == [Job(request), Job(request)]
  {
    var ss, es := LosingJobRun(request, result);
  }

  // ----- markers that nobody clears -----

  /** One lost reply orphans a marker: enqueue returns RedisDown when its DEL/SET pipe fails, and
      deletes no marker then, although the SET may have been executed. */
  lemma LostReplyOrphansMarker(request: Request)
    ensures exists ss: seq<State>, es: seq<Event> :: Path(AnyStep(), EMPTY_STATE, ss, es) && |es| == 3
              && ss[3].tasks == map[0 := Answered(request, RedisDown)] && Orphaned(ss[3], request.jobId)
  {
    var ss, es := [EMPTY_STATE], [];
    ss, es := Walk(AnyStep(), EMPTY_STATE, ss, es, Submit(0, request));
    ss, es := Walk(AnyStep(), EMPTY_STATE, ss, es, Exec(0, true));
    ss, es := Walk(AnyStep(), EMPTY_STATE, ss, es, Exec(0, false));
    assert Orphaned(ss[3], request.jobId);
  }

  lemma LateClaimRun(request: Request) returns (ss: seq<State>, es: seq<Event>)
    ensures Path(AnyStep(), EMPTY_STATE, ss, es) && |es| == 4
    ensures ss[2] == EMPTY_STATE.(tasks := map[0 := Answered(request, RedisDown), 1 := Stray(Claim(request), 0)])
    ensures ss[4] == State(EMPTY_STATE.broker.(markers := {request.jobId}),
                           map[0 := Answered(request, RedisDown), 1 := Stray(Claim(request), 2)], {})
  {
    ss, es := [EMPTY_STATE], [];
    ss, es := Walk(AnyStep(), EMPTY_STATE, ss, es, Submit(0, request));
    ss, es := Walk(AnyStep(), EMPTY_STATE, ss, es, Break(0, Some(1)));
    var tasks := map[0 := Answered(request, RedisDown), 1 := Stray(Claim(request), 0)];
    assert ss[2] == State(EMPTY_STATE.broker, tasks, {});
    ss, es := Walk(AnyStep(), EMPTY_STATE, ss, es, Exec(1, true));
    assert ss[3] == State(EMPTY_STATE.broker, tasks[1 := Stray(Claim(request), 1)], {});
    ss, es := Walk(AnyStep(), EMPTY_STATE, ss, es, Exec(1, true));
  }

  /** A late command orphans a marker, too: nothing was executed when enqueue returned RedisDown. */
  lemma LateClaimOrphansMarker(request: Request)
    ensures exists ss: seq<State>, es: seq<Event> :: Path(AnyStep(), EMPTY_STATE, ss, es) && |es| == 4
              && ss[2].broker == EMPTY_STATE.broker
              && ss[2].tasks == map[0 := Answered(request, RedisDown), 1 := Stray(Claim(request), 0)]
              && Orphaned(ss[4], request.jobId)
  {
    var ss, es := LateClaimRun(request);
    assert Orphaned(ss[4], request.jobId);
  }
}
