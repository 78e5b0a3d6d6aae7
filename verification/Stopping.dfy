/**
 Which verdicts a stopped job can have in a window of a given width. run_tests reports the failing test
 that completes first, and a test can complete first among the failing ones exactly if the window has
 room for it beside those before it. How wide the window of a job is, is the subject of Gating.
 */
module Stopping {
  import opened Prelude
  import opened Verdict
  import opened Scheduling
  import opened Pipeline

  /** The job stops at its first failing test, and the sandbox failed for none. */
  predicate Stops(job: Job, runs: Runs, base: JobResult) {
    && |runs| == |job.tests| && (forall i | 0 <= i < |runs| :: runs[i].Success?)
    && job.stopOnFirstFail && base.verdict == Accepted && base.tests == []
  }

  predicate Fails(job: Job, runs: Runs, i: nat)
    requires |runs| == |job.tests| && i < |runs| && runs[i].Success?
  {
    VerdictAt(job, runs, i) != Accepted
  }

  function VerdictAt(job: Job, runs: Runs, i: nat): JudgeVerdict
    requires |runs| == |job.tests| && i < |runs| && runs[i].Success?
  {
    VerdictOf(runs[i].value, job.tests[i], job.limits)
  }

  /** The failing tests before test i. */
  function FailingBefore(job: Job, runs: Runs, i: nat): (failing: set<nat>)
    requires |runs| == |job.tests| && i <= |runs| && forall j | 0 <= j < |runs| :: runs[j].Success?
    ensures forall j: nat :: j in failing <==> j < i && Fails(job, runs, j)
  {
    if i == 0 then {}
    else FailingBefore(job, runs, i - 1) + if Fails(job, runs, i - 1) then {i - 1} else {}
  }

  ghost predicate Finished(ws: seq<Window>, ms: seq<Move>, total: nat, window: nat) {
    Schedule(ws, ms, total, window) && ws[|ms|].next == total && ws[|ms|].inFlight == {}
  }

  predicate Gives(job: Job, runs: Runs, base: JobResult, order: seq<nat>, verdict: JudgeVerdict) {
    && Fits(job, runs, order)
    && Evaluate(job, runs, order, base).Success? && Evaluate(job, runs, order, base).value.verdict == verdict
  }

  /** Some schedule of the window makes `verdict` the job's. The stop itself only cuts a schedule short. */
  ghost predicate Possible(job: Job, runs: Runs, base: JobResult, window: nat, verdict: JudgeVerdict) {
    exists ws: seq<Window>, ms: seq<Move> ::
      Finished(ws, ms, |runs|, window) && Gives(job, runs, base, ws[|ms|].done, verdict)
  }

  // ----- what is collected -----

  lemma {:induction false} NoFailureNoError(job: Job, runs: Runs, order: seq<nat>)
    requires Fits(job, runs, order) && forall i | 0 <= i < |runs| :: runs[i].Success?
    ensures Collect(job, runs, order).Success?
    decreases |order|
  {
    if order != [] {
      NoFailureNoError(job, runs, order[1..]);
    }
  }

  /** The last completion decides. */
  lemma StoppedVerdict(base: JobResult, raws: seq<Raw>)
    requires DistinctIndices(raws) && forall k | 0 <= k < |raws| - 1 :: raws[k].verdict == Accepted
    requires base.verdict == Accepted && base.tests == []
    ensures Judge(base, raws).verdict == if raws == [] then Accepted else raws[|raws| - 1].verdict
  {
    OneFailureAfterSort(raws);
    JudgeComputes(base, raws);
    var sorted, verdict := SortByIndex(raws), Judge(base, raws).verdict;
    if i :| 0 <= i < |sorted| && sorted[i].verdict != Accepted {
      OnlyFailureIsFirst(sorted, verdict, i);
      SortedFromRaws(raws, i);
    }
  }

  /** The first failing test of the order is the last one collected, and decides. */
  lemma {:induction false} StopsAt(job: Job, runs: Runs, order: seq<nat>, p: nat)
    requires Fits(job, runs, order) && job.stopOnFirstFail && p < |order|
    requires forall i | 0 <= i < |runs| :: runs[i].Success?
    requires Fails(job, runs, order[p]) && forall k | 0 <= k < p :: !Fails(job, runs, order[k])
    ensures Collect(job, runs, order).Success? && |Collect(job, runs, order).value| == p + 1
    decreases |order|
  {
    if p > 0 {
      StopsAt(job, runs, order[1..], p - 1);
    }
  }

  lemma FirstFailureDecides(job: Job, runs: Runs, base: JobResult, order: seq<nat>, p: nat)
    requires Stops(job, runs, base) && IsPermutation(order, |runs|) && p < |order|
    requires Fails(job, runs, order[p]) && forall k | 0 <= k < p :: !Fails(job, runs, order[k])
    ensures Gives(job, runs, base, order, VerdictAt(job, runs, order[p]))
  {
    StopsAt(job, runs, order, p);
    CollectStops(job, runs, order);
    CollectsRaws(job, runs, order);
    StoppedVerdict(base, Collect(job, runs, order).value);
  }

  lemma NoFailureIsAccepted(job: Job, runs: Runs, base: JobResult, order: seq<nat>)
    requires Stops(job, runs, base) && IsPermutation(order, |runs|)
    requires forall i | 0 <= i < |runs| :: !Fails(job, runs, i)
    ensures Gives(job, runs, base, order, Accepted)
  {
    NoFailureNoError(job, runs, order);
    CollectStops(job, runs, order);
    CollectsRaws(job, runs, order);
    var raws := Collect(job, runs, order).value;
    StoppedVerdict(base, raws);
    assert raws != [] ==> !Fails(job, runs, order[|raws| - 1]);
  }

  lemma FirstFailing(job: Job, runs: Runs, order: seq<nat>) returns (p: nat)
    requires Fits(job, runs, order) && forall i | 0 <= i < |runs| :: runs[i].Success?
    ensures p <= |order| && (p < |order| ==> Fails(job, runs, order[p]))
    ensures forall k | 0 <= k < p :: !Fails(job, runs, order[k])
  {
    p := 0;
    while p < |order| && !Fails(job, runs, order[p])
      invariant p <= |order| && forall k | 0 <= k < p :: !Fails(job, runs, order[k])
    {
      p := p + 1;
    }
  }

  // ----- no other verdict is possible -----

  /** The move that completed the p-th test. */
  lemma {:induction false} CompletionMove(ws: seq<Window>, ms: seq<Move>, total: nat, window: nat, k: nat, p: nat)
    returns (m: nat)
    requires Schedule(ws, ms, total, window) && k < |ws| && p < |ws[k].done|
    ensures m < k && ms[m] == Complete(ws[k].done[p]) && ws[m].done == ws[k].done[..p]
  {
    assert ws[k] == Moved(ws[k - 1], ms[k - 1]);
    if p < |ws[k - 1].done| {
      m := CompletionMove(ws, ms, total, window, k - 1, p);
    } else {
      m := k - 1;
    }
  }

  /** When the first failing test completes, all failing tests before it are still in flight. */
  lemma FirstFailureFits(job: Job, runs: Runs, base: JobResult, ws: seq<Window>, ms: seq<Move>, window: nat, p: nat)
    requires Stops(job, runs, base) && Finished(ws, ms, |runs|, window) && p < |ws[|ms|].done|
    requires IsPermutation(ws[|ms|].done, |runs|)
    requires Fails(job, runs, ws[|ms|].done[p]) && forall k | 0 <= k < p :: !Fails(job, runs, ws[|ms|].done[k])
    ensures |FailingBefore(job, runs, ws[|ms|].done[p])| < window
  {
    var i := ws[|ms|].done[p];
    var m := CompletionMove(ws, ms, |runs|, window, |ms|, p);
    ScheduleInv(ws, ms, |runs|, window, m);
    var failing := FailingBefore(job, runs, i) + {i};
    forall j | j in failing ensures j in ws[m].inFlight {
      assert j !in ws[m].done;
    }
    SubsetSize(failing, ws[m].inFlight);
  }

  // ----- every such verdict is possible -----

  /** Run on to the end, whatever is in flight. */
  lemma {:induction false} Drain(ws: seq<Window>, ms: seq<Move>, total: nat, window: nat)
    returns (ws': seq<Window>, ms': seq<Move>)
    requires Schedule(ws, ms, total, window) && window > 0 && ws[|ms|].next <= total
    ensures Finished(ws', ms', total, window) && ws[|ms|].done <= ws'[|ms'|].done
    decreases total - ws[|ms|].next, |ws[|ms|].inFlight|
  {
    var w := ws[|ms|];
    if i :| i in w.inFlight {
      ws', ms' := Play(ws, ms, total, window, Complete(i));
      ws', ms' := Drain(ws', ms', total, window);
    } else if w.next < total {
      ws', ms' := Play(ws, ms, total, window, StartNext);
      ws', ms' := Drain(ws', ms', total, window);
    } else {
      ws', ms' := ws, ms;
    }
  }

  /** The tests before k are started; of these the failing ones are kept in flight, and the others have
      completed. */
  ghost predicate Held(job: Job, runs: Runs, w: Window, k: nat)
    requires |runs| == |job.tests| && k <= |runs| && forall j | 0 <= j < |runs| :: runs[j].Success?
  {
    && w.next == k && w.inFlight == FailingBefore(job, runs, k)
    && forall p | 0 <= p < |w.done| :: w.done[p] < |runs| && !Fails(job, runs, w.done[p])
  }

  lemma HoldStep(job: Job, runs: Runs, w: Window, k: nat)
    requires |runs| == |job.tests| && k < |runs| && forall j | 0 <= j < |runs| :: runs[j].Success?
    requires Held(job, runs, w, k)
    ensures Fails(job, runs, k) ==> Held(job, runs, Moved(w, StartNext), k + 1)
    ensures !Fails(job, runs, k) ==> Held(job, runs, Moved(Moved(w, StartNext), Complete(k)), k + 1)
  {
  }

  lemma HoldOne(job: Job, runs: Runs, window: nat, ws: seq<Window>, ms: seq<Move>, k: nat)
    returns (ws': seq<Window>, ms': seq<Move>)
    requires |runs| == |job.tests| && k < |runs| && forall j | 0 <= j < |runs| :: runs[j].Success?
    requires Schedule(ws, ms, |runs|, window) && Held(job, runs, ws[|ms|], k)
    requires |FailingBefore(job, runs, k)| < window
    ensures Schedule(ws', ms', |runs|, window) && Held(job, runs, ws'[|ms'|], k + 1)
  {
    HoldStep(job, runs, ws[|ms|], k);
    ws', ms' := Play(ws, ms, |runs|, window, StartNext);
    if !Fails(job, runs, k) {
      ws', ms' := Play(ws', ms', |runs|, window, Complete(k));
    }
  }

  lemma FewerFailBefore(job: Job, runs: Runs, k: nat, i: nat)
    requires |runs| == |job.tests| && k <= i <= |runs| && forall j | 0 <= j < |runs| :: runs[j].Success?
    ensures |FailingBefore(job, runs, k)| <= |FailingBefore(job, runs, i)|
  {
    SubsetSize(FailingBefore(job, runs, k), FailingBefore(job, runs, i));
  }

  lemma HoldFailures(job: Job, runs: Runs, window: nat, k: nat) returns (ws: seq<Window>, ms: seq<Move>)
    requires |runs| == |job.tests| && k <= |runs| && forall j | 0 <= j < |runs| :: runs[j].Success?
    requires |FailingBefore(job, runs, k)| < window
    ensures Schedule(ws, ms, |runs|, window) && Held(job, runs, ws[|ms|], k)
  {
    ws, ms := [Window(0, {}, [])], [];
    for j := 0 to k
      invariant Schedule(ws, ms, |runs|, window) && Held(job, runs, ws[|ms|], j)
    {
      FewerFailBefore(job, runs, j, k);
      ws, ms := HoldOne(job, runs, window, ws, ms, j);
    }
  }

  /** Keep the failing tests before i in flight, complete i, and run on. */
  lemma FailureFirst(job: Job, runs: Runs, base: JobResult, window: nat, i: nat)
    requires Stops(job, runs, base) && i < |runs| && Fails(job, runs, i) && |FailingBefore(job, runs, i)| < window
    ensures Possible(job, runs, base, window, VerdictAt(job, runs, i))
  {
    var ws, ms := HoldFailures(job, runs, window, i);
    var p := |ws[|ms|].done|;
    ws, ms := Play(ws, ms, |runs|, window, StartNext);
    ws, ms := Play(ws, ms, |runs|, window, Complete(i));
    var done := ws[|ms|].done;
    ws, ms := Drain(ws, ms, |runs|, window);
    CompleteSchedule(ws, ms, |runs|, window);
    var order := ws[|ms|].done;
    forall k | 0 <= k <= p ensures order[k] == done[k] {
    }
    FirstFailureDecides(job, runs, base, order, p);
  }

  /** Exactly which verdicts schedules of the window give a stopped job: that of a failing test which has
      fewer failing tests before it than the window is wide, or Accepted if none fails. */
  lemma VerdictsOfWindow(job: Job, runs: Runs, base: JobResult, window: nat, verdict: JudgeVerdict)
    requires Stops(job, runs, base) && window > 0
    ensures Possible(job, runs, base, window, verdict)
       <==> if verdict == Accepted then forall i | 0 <= i < |runs| :: !Fails(job, runs, i)
            else exists i :: 0 <= i < |runs| && VerdictAt(job, runs, i) == verdict
                             && |FailingBefore(job, runs, i)| < window
  {
    if Possible(job, runs, base, window, verdict) {
      PossibleIsFitting(job, runs, base, window, verdict);
    }
    if verdict == Accepted {
      if forall i | 0 <= i < |runs| :: !Fails(job, runs, i) {
        var ws, ms := Drain([Window(0, {}, [])], [], |runs|, window);
        CompleteSchedule(ws, ms, |runs|, window);
        NoFailureIsAccepted(job, runs, base, ws[|ms|].done);
      }
    } else if i :| 0 <= i < |runs| && VerdictAt(job, runs, i) == verdict && |FailingBefore(job, runs, i)| < window {
      FailureFirst(job, runs, base, window, i);
    }
  }

  lemma PossibleIsFitting(job: Job, runs: Runs, base: JobResult, window: nat, verdict: JudgeVerdict)
    requires Stops(job, runs, base) && Possible(job, runs, base, window, verdict)
    ensures if verdict == Accepted then forall i | 0 <= i < |runs| :: !Fails(job, runs, i)
            else exists i :: 0 <= i < |runs| && VerdictAt(job, runs, i) == verdict
                             && |FailingBefore(job, runs, i)| < window
  {
    var ws: seq<Window>, ms: seq<Move> :|
      Finished(ws, ms, |runs|, window) && Gives(job, runs, base, ws[|ms|].done, verdict);
    var order := ws[|ms|].done;
    CompleteSchedule(ws, ms, |runs|, window);
    var p := FirstFailing(job, runs, order);
    if p < |order| {
      FirstFailureDecides(job, runs, base, order, p);
      FirstFailureFits(job, runs, base, ws, ms, window, p);
    } else {
      forall i | 0 <= i < |runs| ensures !Fails(job, runs, i) {
        PermutationCovers(order, |runs|, i);
      }
      NoFailureIsAccepted(job, runs, base, order);
    }
  }
}
