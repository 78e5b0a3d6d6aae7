/**
 Ids of which nothing is left over when they are submitted, whatever happened to them before: the
 enqueue then leads to a safe state.
 */
module ClusterSubmission {
  import opened Prelude
  import opened Redis
  import opened Cluster
  import opened ClusterRuns
  import opened ClusterVisibility

  // ----- the last submission of an id -----

  /** The task may still store, claim, append, report or clear something under `id`. */
  predicate About(b: Broker, task: Task, id: JobId) {
    match task
    case Running(_, request) => request.jobId == id
    case Swept(msg) => IsEntryOf(b, msg, id)
    case Answered(_, _) => false
    case _ =>
      Active(task) &&
      match task.pipe
      case Report(_, _, result) => result.jobId == id
      case Reack(_, i) => i == id
      case Discard(_) => false
      case _ => task.pipe.request.jobId == id
  }

  predicate Past(b: Broker, i: nat, base: nat) {
    i < base && i < b.delivered && i !in b.pel
  }

  /** Only the tasks in `owners` are about `id`, and the group is done with all its entries, which were
      added before `base`. Its keys may be anything. */
  ghost predicate Quiet(s: State, id: JobId, owners: set<nat>, base: nat) {
    && (forall t | t in s.tasks && t !in owners :: !About(s.broker, s.tasks[t], id))
    && (forall i | s.broker.born <= i && IsEntryOf(s.broker, i, id) :: Past(s.broker, i, base))
  }

  predicate ByOthers(s: State, e: Event, id: JobId, owners: set<nat>) {
    && Enabled(s, e) && owners <= s.tasks.Keys
    && !Submits(e, id) && (Actor(e).Some? ==> Actor(e).value !in owners)
  }

  lemma QuietTask(s: State, e: Event, id: JobId, owners: set<nat>, base: nat, u: nat)
    requires Inv(s) && Quiet(s, id, owners, base) && ByOthers(s, e, id, owners)
    requires u in Do(s, e).tasks && u !in owners && (u !in s.tasks || Actor(e) == Some(u))
    ensures !About(Do(s, e).broker, Do(s, e).tasks[u], id)
  {
    if Actor(e).Some? {
      assert !About(s.broker, s.tasks[e.task], id) && TaskInv(s, s.tasks[e.task]);
    }
    if e.Deliver? {
      assert !IsEntryOf(s.broker, NextEntry(s.broker), id);
    }
  }

  lemma StillNotAbout(s: State, e: Event, id: JobId, u: nat)
    requires Inv(s) && Enabled(s, e) && u in s.tasks && !About(s.broker, s.tasks[u], id)
    ensures !About(Do(s, e).broker, s.tasks[u], id)
  {
    assert TaskInv(s, s.tasks[u]);
  }

  lemma AddsNoEntry(s: State, e: Event, id: JobId, owners: set<nat>, base: nat, i: nat)
    requires Inv(s) && Quiet(s, id, owners, base) && ByOthers(s, e, id, owners)
    requires IsEntryOf(Do(s, e).broker, i, id)
    ensures IsEntryOf(s.broker, i, id)
  {
    if e.Exec? {
      assert !About(s.broker, s.tasks[e.task], id);
    }
  }

  lemma QuietEntry(s: State, e: Event, id: JobId, owners: set<nat>, base: nat, i: nat)
    requires Inv(s) && Quiet(s, id, owners, base) && ByOthers(s, e, id, owners)
    requires s.broker.born <= i && IsEntryOf(Do(s, e).broker, i, id)
    ensures Past(Do(s, e).broker, i, base)
  {
    AddsNoEntry(s, e, id, owners, base, i);
    assert Past(s.broker, i, base);
  }

  /** A step of another task than the owners leaves an id that is quiet but for them alone. */
  lemma QuietStep(s: State, e: Event, id: JobId, owners: set<nat>, base: nat)
    requires Inv(s) && Quiet(s, id, owners, base) && ByOthers(s, e, id, owners)
    ensures Quiet(Do(s, e), id, owners, base)
    ensures forall t | t in owners :: t in Do(s, e).tasks && Do(s, e).tasks[t] == s.tasks[t]
  {
    forall u | u in Do(s, e).tasks && u !in owners ensures !About(Do(s, e).broker, Do(s, e).tasks[u], id) {
      if u !in s.tasks || Actor(e) == Some(u) {
        QuietTask(s, e, id, owners, base, u);
      } else {
        StillNotAbout(s, e, id, u);
      }
    }
    forall i | Do(s, e).broker.born <= i && IsEntryOf(Do(s, e).broker, i, id) ensures Past(Do(s, e).broker, i, base) {
      QuietEntry(s, e, id, owners, base, i);
    }
  }

  lemma QuietKeys(s: State, e: Event, id: JobId, owners: set<nat>, base: nat)
    requires Inv(s) && Quiet(s, id, owners, base) && ByOthers(s, e, id, owners) && !Expires(e, id)
    ensures id in Do(s, e).broker.results <==> id in s.broker.results
    ensures id in Do(s, e).broker.markers <==> id in s.broker.markers
    ensures !Executes(s, e, SetMarkerNX(id)) && !Executes(s, e, DelMarker(id))
  {
    if Actor(e).Some? {
      assert !About(s.broker, s.tasks[e.task], id);
    }
  }

  /** The claim is under way; up to its DEL an id that was `known` still is. */
  predicate Claiming(s: State, id: JobId, t: nat, known: bool) {
    && t in s.tasks && s.tasks[t].Flight? && s.tasks[t].pipe.Claim? && s.tasks[t].pipe.request.jobId == id
    && s.tasks[t].done < 2 && (if s.tasks[t].done == 1 then id !in s.broker.results else known ==> Live(s, id))
  }

  predicate Appending(s: State, id: JobId, t: nat) {
    && t in s.tasks && s.tasks[t].Flight? && s.tasks[t].pipe.Append? && s.tasks[t].pipe.request.jobId == id
    && s.tasks[t].done == 0 && id in s.broker.markers && id !in s.broker.results
  }

  /** How far the last enqueue of `id` can be. */
  ghost predicate InPhase(s: State, id: JobId, t: nat, base: nat, known: bool) {
    || (Quiet(s, id, {t}, base) && Claiming(s, id, t, known))
    || (Quiet(s, id, {t}, base) && Appending(s, id, t))
    || (Safe(s, id) && Claimed(s, id))
    || Refused(s, id, t)
  }

  lemma ClaimingStep(s: State, e: Event, id: JobId, t: nat, base: nat, known: bool)
    requires Inv(s) && Enabled(s, e) && Quiet(s, id, {t}, base) && Claiming(s, id, t, known)
    requires !Submits(e, id) && !Expires(e, id)
    ensures InPhase(Do(s, e), id, t, base, known)
  {
    if Actor(e) != Some(t) {
      QuietStep(s, e, id, {t}, base);
      QuietKeys(s, e, id, {t}, base);
    } else if e.Exec? {
      OwnStepIsQuiet(s, e, id, t, base);
    }
  }

  /** A command of the enqueue itself, other than its XADD, keeps the rest quiet. */
  lemma OwnStepIsQuiet(s: State, e: Event, id: JobId, t: nat, base: nat)
    requires Inv(s) && Enabled(s, e) && e.Exec? && e.task == t && Quiet(s, id, {t}, base) && !Head(s.tasks[t]).XAdd?
    ensures Quiet(Do(s, e), id, {t}, base)
  {
    forall u | u in Do(s, e).tasks && u !in {t} ensures !About(Do(s, e).broker, Do(s, e).tasks[u], id) {
      StillNotAbout(s, e, id, u);
    }
    assert forall i | IsEntryOf(Do(s, e).broker, i, id) :: IsEntryOf(s.broker, i, id);
  }

  /** The XADD was answered: nothing about the id is left but its entry and its marker. */
  lemma AppendedIsSafe(s: State, e: Event, id: JobId, t: nat, base: nat)
    requires Inv(s) && Enabled(s, e) && Quiet(s, id, {t}, base) && Appending(s, id, t) && e == Exec(t, true)
    ensures Safe(Do(s, e), id) && Claimed(Do(s, e), id)
  {
    forall u | u in s.tasks && u != t ensures !Undermines(s.tasks[u], id, false) && !IsClaim(s.tasks[u], id) {
      assert !About(s.broker, s.tasks[u], id);
    }
  }

  lemma AppendingStep(s: State, e: Event, id: JobId, t: nat, base: nat, known: bool)
    requires Inv(s) && Enabled(s, e) && Quiet(s, id, {t}, base) && Appending(s, id, t)
    requires !Submits(e, id) && !Expires(e, id)
    ensures InPhase(Do(s, e), id, t, base, known)
  {
    if Actor(e) != Some(t) {
      QuietStep(s, e, id, {t}, base);
      QuietKeys(s, e, id, {t}, base);
    } else if e == Exec(t, true) {
      AppendedIsSafe(s, e, id, t, base);
    }
  }

  lemma PhaseStep(s: State, e: Event, id: JobId, t: nat, base: nat, known: bool)
    requires Inv(s) && Enabled(s, e) && InPhase(s, id, t, base, known)
    requires !Submits(e, id) && !Expires(e, id)
    ensures InPhase(Do(s, e), id, t, base, known)
  {
    if Refused(s, id, t) {
      RefusedStep(s, e, id, t);
    } else if Safe(s, id) && Claimed(s, id) {
      SafeStep(s, e, id);
      ClaimedStep(s, e, id);
    } else if Claiming(s, id, t, known) {
      ClaimingStep(s, e, id, t, base, known);
    } else {
      AppendingStep(s, e, id, t, base, known);
    }
  }

  /** At `sub` an id is submitted that is quiet, whatever happened to it before; up to k it is not
      submitted again and none of its keys expires. */
  ghost predicate QuietSubmission(ss: seq<State>, es: seq<Event>, sub: nat, k: nat, id: JobId)
    requires Run(ss, es)
  {
    && sub < k <= |es| && Submits(es[sub], id) && Quiet(ss[sub], id, {}, |ss[sub].broker.stream|)
    && forall j | sub < j < k :: !Submits(es[j], id) && !Expires(es[j], id)
  }

  /** Nothing is left over from submissions that never were: a first submission is quiet. */
  lemma {:induction false} FirstSubmissionIsQuiet(ss: seq<State>, es: seq<Event>, k: nat, id: JobId, base: nat)
    requires RunFromInit(ss, es) && k < |ss| && forall j | 0 <= j < k :: !Submits(es[j], id)
    ensures Quiet(ss[k], id, {}, base)
  {
    if k > 0 {
      FirstSubmissionIsQuiet(ss, es, k - 1, id, base);
      InitInv(ss[0]);
      RunKeepsInv(ss, es, k - 1);
      QuietStep(ss[k - 1], es[k - 1], id, {}, base);
    }
  }

  lemma SubmissionClaims(s: State, e: Event, id: JobId, base: nat, known: bool)
    requires Quiet(s, id, {}, base) && Enabled(s, e) && Submits(e, id) && (known ==> Live(s, id))
    ensures InPhase(Do(s, e), id, e.task, base, known)
  {
    assert Quiet(Do(s, e), id, {e.task}, base) && Claiming(Do(s, e), id, e.task, known);
  }

  lemma {:induction false} PhaseFrom(ss: seq<State>, es: seq<Event>, i: nat, k: nat, id: JobId, t: nat, base: nat,
        known: bool)
    requires Run(ss, es) && Inv(ss[0]) && i <= k < |ss| && InPhase(ss[i], id, t, base, known)
    requires forall j | i <= j < k :: !Submits(es[j], id) && !Expires(es[j], id)
    ensures InPhase(ss[k], id, t, base, known)
  {
    if i < k {
      PhaseFrom(ss, es, i, k - 1, id, t, base, known);
      RunKeepsInv(ss, es, k - 1);
      PhaseStep(ss[k - 1], es[k - 1], id, t, base, known);
    }
  }

  lemma PhaseAlong(ss: seq<State>, es: seq<Event>, sub: nat, k: nat, id: JobId)
    requires Run(ss, es) && Inv(ss[0]) && QuietSubmission(ss, es, sub, k, id)
    ensures InPhase(ss[k], id, es[sub].task, |ss[sub].broker.stream|, Live(ss[sub], id))
  {
    var base, known := |ss[sub].broker.stream|, Live(ss[sub], id);
    SubmissionClaims(ss[sub], es[sub], id, base, known);
    PhaseFrom(ss, es, sub + 1, k, id, es[sub].task, base, known);
  }

  /** A quiet submission that returned Queued has led to a safe state, with no claim left over. */
  lemma QuietIsSafe(ss: seq<State>, es: seq<Event>, sub: nat, q: nat, id: JobId)
    requires RunFromInit(ss, es) && QuietSubmission(ss, es, sub, q, id) && IsQueued(ss[q], es[sub].task, id)
    ensures Inv(ss[q]) && Safe(ss[q], id) && Claimed(ss[q], id)
  {
    InitInv(ss[0]);
    RunKeepsInv(ss, es, q);
    PhaseAlong(ss, es, sub, q, id);
  }

  /** A quiet submission of an id that has a result or a marker makes it unknown only between the DEL and
      the SET NX of its own pipe, or by giving up. */
  lemma UnknownOnlyWhileClaiming(ss: seq<State>, es: seq<Event>, sub: nat, k: nat, id: JobId)
    requires RunFromInit(ss, es) && QuietSubmission(ss, es, sub, k, id) && Live(ss[sub], id) && !Live(ss[k], id)
    ensures var t := es[sub].task;
            Refused(ss[k], id, t) || (t in ss[k].tasks && IsClaim(ss[k].tasks[t], id) && ss[k].tasks[t].done == 1)
  {
    InitInv(ss[0]);
    PhaseAlong(ss, es, sub, k, id);
  }
}
