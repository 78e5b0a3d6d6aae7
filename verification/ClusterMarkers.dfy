/**
 Markers without a job. enqueue promises that a failed attempt does not make a retry look like a
 duplicate; a marker can nevertheless outlive the attempt that set it, and then blocks its id.
 */
module ClusterMarkers {
  import opened Prelude
  import opened Redis
  import opened Cluster
  import opened ClusterRuns
  import opened ClusterVisibility
  import opened ClusterSubmission

  // ----- when a marker is left -----

  /** A SET NX is executed, and its reply reaches the client or does not: it is lost, or the command is
      the late rest of a broken connection. */
  predicate Sets(s: State, e: Event, id: JobId, answered: bool) {
    Executes(s, e, SetMarkerNX(id)) && (answered <==> e.heard && s.tasks[e.task].Flight?)
  }

  /** The enqueue's SET NX was not executed; it may still be, by task u. */
  ghost predicate Unclaimed(s: State, id: JobId, u: nat, base: nat) {
    id !in s.broker.markers && Quiet(s, id, {u}, base) && (u in s.tasks ==> IsClaim(s.tasks[u], id))
  }

  /** Nothing of the enqueue is left, and its SET NX was never executed. */
  ghost predicate Abandoned(s: State, id: JobId, base: nat) {
    id !in s.broker.markers && Quiet(s, id, {}, base)
  }

  lemma AbandonedStep(s: State, e: Event, id: JobId, base: nat)
    requires Inv(s) && Abandoned(s, id, base) && Enabled(s, e) && !Submits(e, id) && !Expires(e, id)
    ensures Abandoned(Do(s, e), id, base)
    ensures !Executes(s, e, SetMarkerNX(id)) && !Executes(s, e, DelMarker(id))
  {
    QuietStep(s, e, id, {}, base);
    QuietKeys(s, e, id, {}, base);
  }

  /** The SET NX was just executed: if its reply does not reach the client, nothing else is left. */
  ghost predicate MarkerSet(s: State, id: JobId, base: nat, answered: bool) {
    id in s.broker.markers && Claimed(s, id) && (answered || Quiet(s, id, {}, base))
  }

  /** The claim goes on alone: in flight, or as the late rest of a broken connection. */
  lemma ClaimExecutes(s: State, e: Event, id: JobId, u: nat, base: nat)
    requires Inv(s) && Unclaimed(s, id, u, base) && Enabled(s, e) && e.Exec? && e.task == u
    ensures !Executes(s, e, DelMarker(id))
    ensures if Executes(s, e, SetMarkerNX(id)) then MarkerSet(Do(s, e), id, base, Sets(s, e, id, true))
            else Unclaimed(Do(s, e), id, u, base)
  {
    OwnStepIsQuiet(s, e, id, u, base);
    assert forall t | t in s.tasks && t != u :: !About(s.broker, s.tasks[t], id);
  }

  lemma ClaimBreaks(s: State, e: Event, id: JobId, u: nat, base: nat)
    requires Inv(s) && Unclaimed(s, id, u, base) && Enabled(s, e) && e.Break? && e.task == u
    ensures if e.stray.Some? then Unclaimed(Do(s, e), id, e.stray.value, base) else Abandoned(Do(s, e), id, base)
  {
    assert forall t | t in s.tasks && t != u :: !About(s.broker, s.tasks[t], id);
    assert Do(s, e).broker == s.broker;
  }

  lemma ClaimVanishes(s: State, id: JobId, u: nat, base: nat)
    requires Inv(s) && Unclaimed(s, id, u, base) && Enabled(s, Vanish(u))
    ensures Abandoned(Do(s, Vanish(u)), id, base)
  {
    assert forall t | t in s.tasks && t != u :: !About(s.broker, s.tasks[t], id);
  }

  ghost predicate Pending(s: State, id: JobId, base: nat) {
    Abandoned(s, id, base) || exists u :: u in s.tasks && Unclaimed(s, id, u, base)
  }

  lemma PendingStep(s: State, e: Event, id: JobId, base: nat)
    requires Inv(s) && Pending(s, id, base) && Enabled(s, e) && !Submits(e, id) && !Expires(e, id)
    ensures !Executes(s, e, DelMarker(id))
    ensures if Executes(s, e, SetMarkerNX(id)) then MarkerSet(Do(s, e), id, base, Sets(s, e, id, true))
            else Pending(Do(s, e), id, base)
  {
    if Abandoned(s, id, base) {
      AbandonedStep(s, e, id, base);
    } else {
      var u :| u in s.tasks && Unclaimed(s, id, u, base);
      if Actor(e) != Some(u) {
        QuietStep(s, e, id, {u}, base);
        QuietKeys(s, e, id, {u}, base);
      } else if e.Exec? {
        ClaimExecutes(s, e, id, u, base);
      } else if e.Break? {
        ClaimBreaks(s, e, id, u, base);
      } else {
        ClaimVanishes(s, id, u, base);
      }
    }
  }

  /** Something happens between i and k. */
  ghost predicate Occurs(ss: seq<State>, es: seq<Event>, i: nat, k: nat, what: (State, Event) -> bool)
    requires Run(ss, es) && k <= |es|
  {
    exists j :: i <= j < k && what(ss[j], es[j])
  }

  function Setting(id: JobId, answered: bool): (State, Event) -> bool {
    (s: State, e: Event) => Sets(s, e, id, answered)
  }

  function Clearing(id: JobId): (State, Event) -> bool {
    (s: State, e: Event) => Executes(s, e, DelMarker(id))
  }

  lemma OccursStep(ss: seq<State>, es: seq<Event>, i: nat, k: nat, what: (State, Event) -> bool)
    requires Run(ss, es) && i <= k < |es|
    ensures Occurs(ss, es, i, k + 1, what) <==> Occurs(ss, es, i, k, what) || what(ss[k], es[k])
  {
  }

  /** Before its SET NX the enqueue is all there is; after an unanswered one nothing is; and after an
      answered one the marker is there until a DEL. */
  ghost predicate InMarkerPhase(s: State, id: JobId, base: nat, lost: bool, answered: bool, cleared: bool) {
    if lost then id in s.broker.markers && Quiet(s, id, {}, base) && !answered && !cleared
    else if answered then Claimed(s, id) && (id in s.broker.markers <==> !cleared)
    else Pending(s, id, base) && !cleared
  }

  lemma MarkerPhaseStep(s: State, e: Event, id: JobId, base: nat, lost: bool, answered: bool, cleared: bool)
    requires Inv(s) && InMarkerPhase(s, id, base, lost, answered, cleared) && Enabled(s, e)
    requires !Submits(e, id) && !Expires(e, id)
    ensures InMarkerPhase(Do(s, e), id, base, lost || Sets(s, e, id, false), answered || Sets(s, e, id, true),
                          cleared || Executes(s, e, DelMarker(id)))
  {
    if lost {
      QuietStep(s, e, id, {}, base);
      QuietKeys(s, e, id, {}, base);
    } else if answered {
      ClaimedStep(s, e, id);
      ClaimedBroker(s, e, id);
    } else {
      PendingStep(s, e, id, base);
    }
  }

  ghost predicate MarkerPhaseAt(ss: seq<State>, es: seq<Event>, i: nat, k: nat, id: JobId, base: nat)
    requires Run(ss, es) && k <= |es|
  {
    InMarkerPhase(ss[k], id, base, Occurs(ss, es, i, k, Setting(id, false)), Occurs(ss, es, i, k, Setting(id, true)),
                  Occurs(ss, es, i, k, Clearing(id)))
  }

  lemma MarkerPhaseNext(ss: seq<State>, es: seq<Event>, i: nat, k: nat, id: JobId, base: nat)
    requires Run(ss, es) && i <= k < |es| && Inv(ss[k]) && MarkerPhaseAt(ss, es, i, k, id, base)
    requires !Submits(es[k], id) && !Expires(es[k], id)
    ensures MarkerPhaseAt(ss, es, i, k + 1, id, base)
  {
    OccursStep(ss, es, i, k, Setting(id, false));
    OccursStep(ss, es, i, k, Setting(id, true));
    OccursStep(ss, es, i, k, Clearing(id));
    var lost, answered := Occurs(ss, es, i, k, Setting(id, false)), Occurs(ss, es, i, k, Setting(id, true));
    MarkerPhaseStep(ss[k], es[k], id, base, lost, answered, Occurs(ss, es, i, k, Clearing(id)));
  }

  lemma MarkerPhaseStart(ss: seq<State>, es: seq<Event>, i: nat, id: JobId, base: nat)
    requires Run(ss, es) && i <= |es| && Pending(ss[i], id, base)
    ensures MarkerPhaseAt(ss, es, i, i, id, base)
  {
  }

  lemma MarkerPhaseAgain(ss: seq<State>, es: seq<Event>, i: nat, k: nat, id: JobId, base: nat)
    requires Run(ss, es) && Inv(ss[0]) && i <= k < |es| && MarkerPhaseAt(ss, es, i, k, id, base)
    requires !Submits(es[k], id) && !Expires(es[k], id)
    ensures MarkerPhaseAt(ss, es, i, k + 1, id, base)
  {
    RunKeepsInv(ss, es, k);
    MarkerPhaseNext(ss, es, i, k, id, base);
  }

  lemma {:induction false} MarkerPhases(ss: seq<State>, es: seq<Event>, i: nat, k: nat, id: JobId, base: nat)
    requires Run(ss, es) && Inv(ss[0]) && i <= k <= |es| && Pending(ss[i], id, base)
    requires forall j | i <= j < k :: !Submits(es[j], id) && !Expires(es[j], id)
    ensures MarkerPhaseAt(ss, es, i, k, id, base)
  {
    if i < k {
      MarkerPhases(ss, es, i, k - 1, id, base);
      MarkerPhaseAgain(ss, es, i, k - 1, id, base);
    } else {
      MarkerPhaseStart(ss, es, i, id, base);
    }
  }

  /** When a marker is left over, at any time after the submission that set it, by that enqueue's fate:
      exactly if its SET NX took effect without an answer, because the reply was lost or the rest of the
      broken pipe reached the broker later, and then nothing ever takes it away; or if it was answered
      and neither the DEL of its rollback nor that of a publisher was executed. */
  lemma MarkerIsLeftIff(ss: seq<State>, es: seq<Event>, sub: nat, k: nat, id: JobId)
    requires RunFromInit(ss, es) && QuietSubmission(ss, es, sub, k, id) && id !in ss[sub].broker.markers
    ensures id in ss[k].broker.markers
       <==> || Occurs(ss, es, sub + 1, k, Setting(id, false))
            || (Occurs(ss, es, sub + 1, k, Setting(id, true)) && !Occurs(ss, es, sub + 1, k, Clearing(id)))
    ensures Occurs(ss, es, sub + 1, k, Setting(id, false)) ==> !Occurs(ss, es, sub + 1, k, Clearing(id))
  {
    InitInv(ss[0]);
    var base := |ss[sub].broker.stream|;
    assert ss[sub + 1] == Do(ss[sub], es[sub]);
    assert Unclaimed(ss[sub + 1], id, es[sub].task, base);
    MarkerPhases(ss, es, sub + 1, k, id, base);
  }

  // ----- what a marker without a job does -----

  predicate OnlyClaims(b: Broker, task: Task, id: JobId) {
    About(b, task, id) ==> (task.Flight? || task.Stray?) && task.pipe.Claim?
  }

  /** The marker of `id` is set, but no unfinished entry, run, report or append for `id` is left. */
  ghost predicate Orphaned(s: State, id: JobId) {
    && id in s.broker.markers && id !in s.broker.results
    && (forall t | t in s.tasks :: OnlyClaims(s.broker, s.tasks[t], id))
    && (forall i | s.broker.born <= i && IsEntryOf(s.broker, i, id) :: Past(s.broker, i, |s.broker.stream|))
  }

  lemma OrphanedTask(s: State, e: Event, id: JobId, u: nat)
    requires Inv(s) && Orphaned(s, id) && Enabled(s, e) && u in Do(s, e).tasks
    requires u !in s.tasks || Actor(e) == Some(u)
    ensures OnlyClaims(Do(s, e).broker, Do(s, e).tasks[u], id)
  {
    if Actor(e).Some? {
      assert OnlyClaims(s.broker, s.tasks[e.task], id) && TaskInv(s, s.tasks[e.task]);
    }
    if e.Deliver? {
      assert !IsEntryOf(s.broker, NextEntry(s.broker), id);
    }
  }

  lemma StillOnlyClaims(s: State, e: Event, id: JobId, u: nat)
    requires Inv(s) && Enabled(s, e) && u in s.tasks && OnlyClaims(s.broker, s.tasks[u], id)
    ensures OnlyClaims(Do(s, e).broker, s.tasks[u], id)
  {
    if !About(s.broker, s.tasks[u], id) {
      StillNotAbout(s, e, id, u);
    }
  }

  lemma OrphanedBroker(s: State, e: Event, id: JobId)
    requires Inv(s) && Orphaned(s, id) && Enabled(s, e) && e != ExpireMarker(id)
    ensures id in Do(s, e).broker.markers && id !in Do(s, e).broker.results
  {
    if e.Exec? {
      assert OnlyClaims(s.broker, s.tasks[e.task], id);
    }
  }

  lemma OrphanedAddsNoEntry(s: State, e: Event, id: JobId, i: nat)
    requires Inv(s) && Orphaned(s, id) && Enabled(s, e) && IsEntryOf(Do(s, e).broker, i, id)
    ensures IsEntryOf(s.broker, i, id)
  {
    if e.Exec? {
      assert OnlyClaims(s.broker, s.tasks[e.task], id);
    }
  }

  lemma OrphanedEntry(s: State, e: Event, id: JobId, i: nat)
    requires Inv(s) && Orphaned(s, id) && Enabled(s, e) && s.broker.born <= i && IsEntryOf(Do(s, e).broker, i, id)
    ensures Past(Do(s, e).broker, i, |Do(s, e).broker.stream|)
  {
    OrphanedAddsNoEntry(s, e, id, i);
    assert Past(s.broker, i, |s.broker.stream|);
  }

  lemma OrphanedStep(s: State, e: Event, id: JobId)
    requires Inv(s) && Orphaned(s, id) && Enabled(s, e) && e != ExpireMarker(id)
    ensures Orphaned(Do(s, e), id)
  {
    OrphanedBroker(s, e, id);
    forall u | u in Do(s, e).tasks ensures OnlyClaims(Do(s, e).broker, Do(s, e).tasks[u], id) {
      if u !in s.tasks || Actor(e) == Some(u) {
        OrphanedTask(s, e, id, u);
      } else {
        StillOnlyClaims(s, e, id, u);
      }
    }
    forall i | Do(s, e).broker.born <= i && IsEntryOf(Do(s, e).broker, i, id)
      ensures Past(Do(s, e).broker, i, |Do(s, e).broker.stream|)
    {
      OrphanedEntry(s, e, id, i);
    }
  }

  lemma OrphanedQueuesNobody(s: State, e: Event, id: JobId, t: nat)
    requires Inv(s) && Orphaned(s, id) && Enabled(s, e) && IsQueued(Do(s, e), t, id)
    ensures IsQueued(s, t, id)
  {
    if e.Exec? {
      assert OnlyClaims(s.broker, s.tasks[e.task], id);
    }
  }

  /** An orphaned marker blocks its id: until it expires, no enqueue of the id comes to return Queued and
      no result for it is stored, so a retry that is told Duplicate waits for nothing. */
  lemma {:induction false} OrphanedMarkerBlocks(ss: seq<State>, es: seq<Event>, i: nat, k: nat, id: JobId)
    requires RunFromInit(ss, es) && i <= k < |ss| && Orphaned(ss[i], id)
    requires forall j | i <= j < k :: es[j] != ExpireMarker(id)
    ensures Orphaned(ss[k], id)
    ensures forall t | IsQueued(ss[k], t, id) :: IsQueued(ss[i], t, id)
  {
    if i < k {
      OrphanedMarkerBlocks(ss, es, i, k - 1, id);
      InitInv(ss[0]);
      RunKeepsInv(ss, es, k - 1);
      OrphanedStep(ss[k - 1], es[k - 1], id);
      forall t | IsQueued(ss[k], t, id) ensures IsQueued(ss[i], t, id) {
        OrphanedQueuesNobody(ss[k - 1], es[k - 1], id, t);
      }
    }
  }
}
