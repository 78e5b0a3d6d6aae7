/** What buffer_unordered can yield, src/orchestrator/pipeline.rs: tests complete in any order within a
    concurrency window. */
module Scheduling {
  import opened Prelude

  /** Tests are started in order, at most `window` are in flight, and any of those completes next. */
  datatype Window = Window(next: nat, inFlight: set<nat>, done: seq<nat>)

  datatype Move = StartNext | Complete(i: nat)

  predicate CanMove(w: Window, total: nat, window: nat, m: Move) {
    match m
    case StartNext => w.next < total && |w.inFlight| < window
    case Complete(i) => i in w.inFlight
  }

  function Moved(w: Window, m: Move): Window {
    match m
    case StartNext => Window(w.next + 1, w.inFlight + {w.next}, w.done)
    case Complete(i) => Window(w.next, w.inFlight - {i}, w.done + [i])
  }

  ghost predicate Schedule(ws: seq<Window>, ms: seq<Move>, total: nat, window: nat) {
    && |ws| == |ms| + 1 && ws[0] == Window(0, {}, [])
    && forall i | 0 <= i < |ms| :: CanMove(ws[i], total, window, ms[i]) && ws[i + 1] == Moved(ws[i], ms[i])
  }

  ghost predicate WindowInv(w: Window, total: nat, window: nat) {
    && w.next <= total && |w.inFlight| <= window && w.next == |w.done| + |w.inFlight|
    && Distinct(w.done)
    && (forall i: nat :: i < w.next <==> i in w.inFlight || i in w.done)
    && (forall i | i in w.inFlight :: i !in w.done)
    && (forall k | 0 <= k < |w.done| :: w.done[k] < k + window)
  }

  /** At every point of every schedule, the completed tests are distinct, the started ones are a prefix,
      and no test is started that is `window` or more ahead of the number completed. */
  lemma {:induction false} ScheduleInv(ws: seq<Window>, ms: seq<Move>, total: nat, window: nat, k: nat)
    requires Schedule(ws, ms, total, window) && k < |ws|
    ensures WindowInv(ws[k], total, window) && ws[k].next <= |ws[k].done| + window
  {
    if k > 0 {
      ScheduleInv(ws, ms, total, window, k - 1);
      assert ws[k] == Moved(ws[k - 1], ms[k - 1]);
      MoveKeepsInv(ws[k - 1], ms[k - 1], total, window);
    }
  }

  lemma MoveKeepsInv(w: Window, m: Move, total: nat, window: nat)
    requires WindowInv(w, total, window) && w.next <= |w.done| + window && CanMove(w, total, window, m)
    ensures WindowInv(Moved(w, m), total, window) && Moved(w, m).next <= |Moved(w, m).done| + window
  {
    match m
    case StartNext => assert w.next !in w.inFlight && w.next !in w.done;
    case Complete(i) => CompleteKeepsInv(w, i, total, window);
  }

  lemma CompleteKeepsInv(w: Window, i: nat, total: nat, window: nat)
    requires WindowInv(w, total, window) && w.next <= |w.done| + window && i in w.inFlight
    ensures WindowInv(Moved(w, Complete(i)), total, window)
  {
    assert i < w.next <= |w.done| + window && i !in w.done;
    assert |w.inFlight - {i}| == |w.inFlight| - 1;
    assert forall j: nat :: j in w.done + [i] <==> j in w.done || j == i;
  }

  predicate IsPermutation(order: seq<nat>, n: nat) {
    |order| == n && Distinct(order) && forall k | 0 <= k < |order| :: order[k] < n
  }

  function ToSet(xs: seq<nat>): set<nat> {
    set x | x in xs
  }

  lemma {:induction false} DistinctSize(xs: seq<nat>)
    requires Distinct(xs)
    ensures |ToSet(xs)| == |xs|
  {
    if xs != [] {
      var rest, last := xs[..|xs| - 1], xs[|xs| - 1];
      DistinctSize(rest);
      assert last !in rest && ToSet(xs) == ToSet(rest) + {last};
    }
  }

  function Below(n: nat): (below: set<nat>)
    ensures |below| == n && forall i: nat :: i in below <==> i < n
  {
    if n == 0 then {} else Below(n - 1) + {n - 1}
  }

  lemma PermutationCovers(order: seq<nat>, n: nat, i: nat)
    requires IsPermutation(order, n) && i < n
    ensures i in order
  {
    DistinctSize(order);
    if i !in order {
      assert ToSet(order) + {i} <= Below(n);
      SubsetSize(ToSet(order) + {i}, Below(n));
    }
  }

  /** A schedule that ran to its end completed every test exactly once. */
  lemma CompleteSchedule(ws: seq<Window>, ms: seq<Move>, total: nat, window: nat)
    requires Schedule(ws, ms, total, window) && ws[|ms|].next == total && ws[|ms|].inFlight == {}
    ensures IsPermutation(ws[|ms|].done, total)
  {
    ScheduleInv(ws, ms, total, window, |ms|);
    var order := ws[|ms|].done;
    forall k | 0 <= k < |order| ensures order[k] < total {
      assert order[k] in order;
    }
  }

  lemma Play(ws: seq<Window>, ms: seq<Move>, total: nat, window: nat, m: Move)
    returns (ws': seq<Window>, ms': seq<Move>)
    requires Schedule(ws, ms, total, window) && CanMove(ws[|ms|], total, window, m)
    ensures Schedule(ws', ms', total, window) && ws'[|ms'|] == Moved(ws[|ms|], m)
  {
    ws', ms' := ws + [Moved(ws[|ms|], m)], ms + [m];
  }

  /** As many tests are started as the window has room for. */
  lemma {:induction false} StartAll(total: nat, window: nat, k: nat) returns (ws: seq<Window>, ms: seq<Move>)
    requires k <= total && k <= window
    ensures Schedule(ws, ms, total, window) && ws[|ms|].next == k && ws[|ms|].done == []
  {
    if k == 0 {
      ws, ms := [Window(0, {}, [])], [];
    } else {
      ws, ms := StartAll(total, window, k - 1);
      ScheduleInv(ws, ms, total, window, |ms|);
      ws, ms := Play(ws, ms, total, window, StartNext);
    }
  }

  /** The first k tests of the order completed, each while the window was full. */
  lemma {:induction false} CompleteFirst(order: seq<nat>, window: nat, k: nat) returns (ws: seq<Window>, ms: seq<Move>)
    requires IsPermutation(order, |order|) && k <= |order|
    requires forall j | 0 <= j < |order| :: order[j] < j + window
    ensures Schedule(ws, ms, |order|, window) && ws[|ms|].next == Min(|order|, k + window)
    ensures ws[|ms|].done == order[..k]
  {
    if k == 0 {
      ws, ms := StartAll(|order|, window, Min(|order|, window));
    } else {
      ws, ms := CompleteFirst(order, window, k - 1);
      ScheduleInv(ws, ms, |order|, window, |ms|);
      assert order[k - 1] !in order[..k - 1];
      ws, ms := Play(ws, ms, |order|, window, Complete(order[k - 1]));
      if ws[|ms|].next < |order| {
        ws, ms := Play(ws, ms, |order|, window, StartNext);
      }
    }
  }

  ghost predicate Completes(ws: seq<Window>, ms: seq<Move>, window: nat, order: seq<nat>) {
    Schedule(ws, ms, |order|, window) && ws[|ms|] == Window(|order|, {}, order)
  }

  /** Exactly which orders of completions the window allows: those in which no test is `window` or more
      places early. */
  lemma OrderHappensIff(order: seq<nat>, window: nat)
    ensures (exists ws: seq<Window>, ms: seq<Move> :: Completes(ws, ms, window, order))
       <==> IsPermutation(order, |order|) && forall k | 0 <= k < |order| :: order[k] < k + window
  {
    if ws: seq<Window>, ms: seq<Move> :| Completes(ws, ms, window, order) {
      CompleteSchedule(ws, ms, |order|, window);
      ScheduleInv(ws, ms, |order|, window, |ms|);
    }
    if IsPermutation(order, |order|) && forall k | 0 <= k < |order| :: order[k] < k + window {
      var ws, ms := CompleteFirst(order, window, |order|);
      ScheduleInv(ws, ms, |order|, window, |ms|);
      assert order[..|order|] == order;
      assert Completes(ws, ms, window, order);
    }
  }
}
