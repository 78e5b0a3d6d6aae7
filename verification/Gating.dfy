/**
 The tests of a job behind the memory gate. run_tests keeps a window of tests in flight, but each of
 them first takes its units from the fair semaphore in Sandbox::execute, so that only admitted tests can
 complete. The tests of a job ask for their units in order, and other jobs come and go as they like.
 */
module Gating {
  import opened Prelude
  import opened Verdict
  import opened Scheduling
  import opened Pipeline
  import opened Stopping
  import A = Admission

  /** The number of tests, the memory limit of each, the budget in units, the width of buffer_unordered. */
  datatype Setting = Setting(tests: nat, mem: nat, total: nat, window: nat)

  predicate Proper(c: Setting) {
    c.window > 0 && 1 <= c.total < A.TWO_32
  }

  function Units(c: Setting): (units: nat)
    requires Proper(c)
    ensures 1 <= units <= c.total
  {
    A.UnitsFor(c.mem, c.total)
  }

  /** How many tests of the job can run at once. */
  function Width(c: Setting): (width: nat)
    requires Proper(c)
    ensures width > 0
  {
    AtLeastOne(c.total, Units(c));
    Min(c.window, c.total / Units(c))
  }

  lemma AtLeastOne(total: nat, units: nat)
    requires 1 <= units <= total
    ensures total / units >= 1
  {
  }

  /** The job's window, and the gate that it shares: executions numbered below `tests` are the job's. */
  datatype State = State(window: Window, gate: A.Gate)

  datatype Step =
    | Start               // buffer_unordered polls the next test, which asks for its units
    | Finish(p: nat)      // the p-th holder, a test of the job, completes and returns its units
    | Other(e: A.Event)   // something happens to an execution of another job

  predicate CanStep(s: State, c: Setting, step: Step) {
    match step
    case Start => CanMove(s.window, c.tests, c.window, StartNext)
    case Finish(p) => p < |s.gate.holders| && s.gate.holders[p].id < c.tests
    case Other(e) =>
      A.Enabled(s.gate, e)
      && match e
         case Arrive(x) => x.id >= c.tests
         case Complete(i) => s.gate.holders[i].id >= c.tests
         case Cancel(i) => s.gate.queue[i].id >= c.tests
  }

  /** The step up to the admissions that it allows. */
  function Before(s: State, c: Setting, step: Step): State
    requires CanStep(s, c, step)
  {
    match step
    case Start => State(Moved(s.window, StartNext), Arrived(s.gate, A.Execution(s.window.next, c.mem)))
    case Finish(p) => State(Moved(s.window, Complete(s.gate.holders[p].id)), Freed(s.gate, p, c.total))
    case Other(e) =>
      s.(gate := match e
                 case Arrive(x) => Arrived(s.gate, x)
                 case Complete(i) => Freed(s.gate, i, c.total)
                 case Cancel(i) => s.gate.(queue := A.Without(s.gate.queue, i)))
  }

  function Arrived(g: A.Gate, x: A.Execution): A.Gate {
    g.(queue := g.queue + [x])
  }

  function Freed(g: A.Gate, i: nat, total: nat): A.Gate
    requires i < |g.holders|
  {
    g.(available := g.available + A.UnitsFor(g.holders[i].mem, total), holders := A.Without(g.holders, i))
  }

  function Stepped(s: State, c: Setting, step: Step): State
    requires CanStep(s, c, step)
  {
    match step
    case Start =>
      State(Moved(s.window, StartNext), A.Do(s.gate, A.Arrive(A.Execution(s.window.next, c.mem)), c.total))
    case Finish(p) =>
      State(Moved(s.window, Complete(s.gate.holders[p].id)), A.Do(s.gate, A.Complete(p), c.total))
    case Other(e) => s.(gate := A.Do(s.gate, e, c.total))
  }

  lemma StepAdmits(s: State, c: Setting, step: Step)
    requires CanStep(s, c, step)
    ensures var s' := Before(s, c, step); Stepped(s, c, step) == s'.(gate := A.Admit(s'.gate, c.total))
  {
  }

  ghost predicate Run(ss: seq<State>, steps: seq<Step>, c: Setting) {
    && |ss| == |steps| + 1 && ss[0] == State(Window(0, {}, []), A.Gate(c.total, [], []))
    && forall i | 0 <= i < |steps| :: CanStep(ss[i], c, steps[i]) && ss[i + 1] == Stepped(ss[i], c, steps[i])
  }

  // ----- the job's part of the gate -----

  /** The tests of the job among the executions. */
  function Own(xs: seq<A.Execution>, n: nat): seq<nat> {
    if xs == [] then []
    else
      var x := xs[|xs| - 1];
      Own(xs[..|xs| - 1], n) + if x.id < n then [x.id] else []
  }

  lemma {:induction false} OwnConcat(xs: seq<A.Execution>, ys: seq<A.Execution>, n: nat)
    ensures Own(xs + ys, n) == Own(xs, n) + Own(ys, n)
    decreases |ys|
  {
    if ys == [] {
      assert xs + ys == xs;
    } else {
      assert (xs + ys)[..|xs + ys| - 1] == xs + ys[..|ys| - 1];
      OwnConcat(xs, ys[..|ys| - 1], n);
    }
  }

  lemma OwnSplit(xs: seq<A.Execution>, i: nat, n: nat)
    requires i < |xs|
    ensures var own := if xs[i].id < n then [xs[i].id] else [];
            && Own(xs, n) == Own(xs[..i], n) + own + Own(xs[i + 1..], n)
            && Own(A.Without(xs, i), n) == Own(xs[..i], n) + Own(xs[i + 1..], n)
  {
    assert xs == xs[..i] + [xs[i]] + xs[i + 1..];
    OwnConcat(xs[..i] + [xs[i]], xs[i + 1..], n);
    OwnConcat(xs[..i], [xs[i]], n);
    OwnConcat(xs[..i], xs[i + 1..], n);
    assert [xs[i]][..0] == [];
  }

  /** The job's tests have the same memory limit. */
  predicate SameLimit(xs: seq<A.Execution>, c: Setting) {
    forall i | 0 <= i < |xs| :: xs[i].id < c.tests ==> xs[i].mem == c.mem
  }

  lemma OneMore(k: nat, u: nat)
    ensures (k + 1) * u == k * u + u
  {
  }

  lemma {:induction false} OwnUnits(xs: seq<A.Execution>, c: Setting)
    requires Proper(c) && SameLimit(xs, c)
    ensures A.HeldUnits(xs, c.total) >= |Own(xs, c.tests)| * Units(c)
  {
    if xs != [] {
      OwnUnits(xs[..|xs| - 1], c);
      OneMore(|Own(xs[..|xs| - 1], c.tests)|, Units(c));
    }
  }

  /** What the job has at the gate is what it has in flight: the tests waiting there are the last ones
      started, in order, and those that hold units are the others in flight. */
  ghost predicate Mirrors(w: Window, holding: seq<nat>, waiting: seq<nat>, c: Setting) {
    && w.next <= c.tests && |w.inFlight| <= c.window && |waiting| <= w.next
    && (forall j | 0 <= j < |waiting| :: waiting[j] == w.next - |waiting| + j)
    && Distinct(holding) && (forall j | 0 <= j < |holding| :: holding[j] < w.next - |waiting|)
    && forall i: nat :: i in w.inFlight <==> i in ToSet(holding) || w.next - |waiting| <= i < w.next
  }

  predicate Sound(g: A.Gate, c: Setting) {
    A.Balanced(g, c.total) && SameLimit(g.holders, c) && SameLimit(g.queue, c)
  }

  ghost predicate Fitted(s: State, c: Setting) {
    Mirrors(s.window, Own(s.gate.holders, c.tests), Own(s.gate.queue, c.tests), c) && Sound(s.gate, c)
  }

  /** The window of the admitted tests. */
  function Running(w: Window, holding: seq<nat>, waiting: seq<nat>): Window
    requires |waiting| <= w.next
  {
    Window(w.next - |waiting|, ToSet(holding), w.done)
  }

  ghost function Admitted(s: State, c: Setting): Window
    requires Fitted(s, c)
  {
    Running(s.window, Own(s.gate.holders, c.tests), Own(s.gate.queue, c.tests))
  }

  lemma MirrorsAdmission(w: Window, holding: seq<nat>, waiting: seq<nat>, c: Setting)
    requires Mirrors(w, holding, waiting, c) && waiting != []
    ensures Mirrors(w, holding + [waiting[0]], waiting[1..], c)
    ensures Running(w, holding + [waiting[0]], waiting[1..]) == Moved(Running(w, holding, waiting), StartNext)
  {
    assert waiting[0] == w.next - |waiting|;
    assert ToSet(holding + [waiting[0]]) == ToSet(holding) + {waiting[0]};
  }

  lemma MirrorsStart(w: Window, holding: seq<nat>, waiting: seq<nat>, c: Setting)
    requires Mirrors(w, holding, waiting, c) && CanMove(w, c.tests, c.window, StartNext)
    ensures Mirrors(Moved(w, StartNext), holding, waiting + [w.next], c)
    ensures Running(Moved(w, StartNext), holding, waiting + [w.next]) == Running(w, holding, waiting)
  {
  }

  /** Without the element at position k, a distinct sequence has the other elements. */
  lemma RemovedFrom(xs: seq<nat>, ys: seq<nat>, k: nat)
    requires Distinct(xs) && k < |xs| && ys == xs[..k] + xs[k + 1..]
    ensures Distinct(ys) && xs[k] !in ys && ToSet(xs) == ToSet(ys) + {xs[k]}
  {
    assert forall j | 0 <= j < |ys| :: ys[j] == xs[if j < k then j else j + 1];
    forall x | x in xs ensures x in ys || x == xs[k] {
      var j :| 0 <= j < |xs| && xs[j] == x;
      assert j < k ==> ys[j] == x;
      assert j > k ==> ys[j - 1] == x;
    }
  }

  lemma MirrorsFinish(w: Window, holding: seq<nat>, holding': seq<nat>, k: nat, waiting: seq<nat>, c: Setting)
    requires Mirrors(w, holding, waiting, c) && k < |holding| && holding' == holding[..k] + holding[k + 1..]
    ensures var i := holding[k];
            && i in w.inFlight && i in ToSet(holding) && Mirrors(Moved(w, Complete(i)), holding', waiting, c)
            && Running(Moved(w, Complete(i)), holding', waiting) == Moved(Running(w, holding, waiting), Complete(i))
  {
    var i := holding[k];
    RemovedFrom(holding, holding', k);
    WithoutIsBelow(holding, holding', k, w.next - |waiting|);
    SubsetSize(w.inFlight - {i}, w.inFlight);
    assert i in ToSet(holding) && ToSet(holding') == ToSet(holding) - {i};
  }

  lemma WithoutIsBelow(xs: seq<nat>, ys: seq<nat>, k: nat, bound: int)
    requires k < |xs| && ys == xs[..k] + xs[k + 1..] && forall j | 0 <= j < |xs| :: xs[j] < bound
    ensures forall j | 0 <= j < |ys| :: ys[j] < bound
  {
    assert forall j | 0 <= j < |ys| :: ys[j] == xs[if j < k then j else j + 1];
  }

  /** The admission of the waiter at the head. */
  function Next(g: A.Gate, c: Setting): A.Gate
    requires g.queue != []
  {
    A.Gate(g.available - A.UnitsFor(g.queue[0].mem, c.total), g.queue[1..], g.holders + [g.queue[0]])
  }

  predicate HasRoom(g: A.Gate, c: Setting) {
    g.queue != [] && A.UnitsFor(g.queue[0].mem, c.total) <= g.available
  }

  lemma NextIsSound(g: A.Gate, c: Setting)
    requires Sound(g, c) && HasRoom(g, c)
    ensures Sound(Next(g, c), c)
  {
    assert Next(g, c).holders[..|g.holders|] == g.holders;
  }

  lemma NextOwns(g: A.Gate, c: Setting)
    requires g.queue != []
    ensures var hs, qs := Own(g.holders, c.tests), Own(g.queue, c.tests);
            var hs', qs' := Own(Next(g, c).holders, c.tests), Own(Next(g, c).queue, c.tests);
            if g.queue[0].id < c.tests then qs != [] && hs' == hs + [qs[0]] && qs' == qs[1..]
            else hs' == hs && qs' == qs
  {
    OwnSplit(g.queue, 0, c.tests);
    assert g.queue[..0] == [];
    OwnConcat(g.holders, [g.queue[0]], c.tests);
    assert [g.queue[0]][..0] == [];
  }

  lemma NextFits(s: State, c: Setting)
    requires Proper(c) && Fitted(s, c) && HasRoom(s.gate, c)
    ensures var s' := s.(gate := Next(s.gate, c));
            Fitted(s', c) && (Admitted(s', c) == Admitted(s, c) || Admitted(s', c) == Moved(Admitted(s, c), StartNext))
  {
    NextIsSound(s.gate, c);
    NextOwns(s.gate, c);
    if s.gate.queue[0].id < c.tests {
      MirrorsAdmission(s.window, Own(s.gate.holders, c.tests), Own(s.gate.queue, c.tests), c);
    }
  }

  /** No more tests are admitted than fit. */
  lemma AdmittedFits(s: State, c: Setting)
    requires Proper(c) && Fitted(s, c)
    ensures |Admitted(s, c).inFlight| <= Width(c)
  {
    var hs, u := Own(s.gate.holders, c.tests), Units(c);
    DistinctSize(hs);
    SubsetSize(ToSet(hs), s.window.inFlight);
    OwnUnits(s.gate.holders, c);
    Quotient(|hs|, u, c.total);
  }

  lemma Quotient(k: nat, u: nat, total: nat)
    requires u > 0
    ensures k * u <= total <==> k <= total / u
  {
    var q := total / u;
    assert q * u <= total < (q + 1) * u;
    if k <= q {
      assert k * u <= q * u;
    } else {
      assert k * u >= (q + 1) * u;
    }
  }

  /** Admissions are starts of the window of admitted tests. */
  lemma {:induction false} AdmitStarts(s: State, c: Setting, ws: seq<Window>, ms: seq<Move>)
    returns (ws': seq<Window>, ms': seq<Move>)
    requires Proper(c) && Fitted(s, c) && Schedule(ws, ms, c.tests, Width(c)) && ws[|ms|] == Admitted(s, c)
    ensures var s' := s.(gate := A.Admit(s.gate, c.total));
            Fitted(s', c) && Schedule(ws', ms', c.tests, Width(c)) && ws'[|ms'|] == Admitted(s', c)
    decreases |s.gate.queue|
  {
    ws', ms' := ws, ms;
    if HasRoom(s.gate, c) {
      var s1 := s.(gate := Next(s.gate, c));
      ws', ms' := AdmitOne(s, s1, c, ws, ms);
      ws', ms' := AdmitStarts(s1, c, ws', ms');
    }
  }

  lemma AdmitOne(s: State, s1: State, c: Setting, ws: seq<Window>, ms: seq<Move>)
    returns (ws': seq<Window>, ms': seq<Move>)
    requires Proper(c) && Fitted(s, c) && HasRoom(s.gate, c) && s1 == s.(gate := Next(s.gate, c))
    requires Schedule(ws, ms, c.tests, Width(c)) && ws[|ms|] == Admitted(s, c)
    ensures Fitted(s1, c) && Schedule(ws', ms', c.tests, Width(c)) && ws'[|ms'|] == Admitted(s1, c)
  {
    NextFits(s, c);
    ws', ms' := ws, ms;
    if Admitted(s1, c) != Admitted(s, c) {
      AdmittedFits(s1, c);
      ScheduleInv(ws, ms, c.tests, Width(c), |ms|);
      assert ws[|ms|].next !in ws[|ms|].inFlight;
      ws', ms' := Play(ws, ms, c.tests, Width(c), StartNext);
    }
  }

  lemma UnitsInRange(mem: nat, total: nat)
    requires 1 <= total < A.TWO_32
    ensures 1 <= A.UnitsFor(mem, total) <= total
  {
  }

  lemma ArrivalIsSound(g: A.Gate, c: Setting, x: A.Execution)
    requires Proper(c) && Sound(g, c) && (x.id < c.tests ==> x.mem == c.mem)
    ensures Sound(Arrived(g, x), c)
    ensures Own(Arrived(g, x).queue, c.tests) == Own(g.queue, c.tests) + if x.id < c.tests then [x.id] else []
  {
    UnitsInRange(x.mem, c.total);
    assert Arrived(g, x).queue[..|g.queue|] == g.queue;
  }

  lemma FreeingIsSound(g: A.Gate, c: Setting, i: nat)
    requires Sound(g, c) && i < |g.holders|
    ensures Sound(Freed(g, i, c.total), c)
  {
    A.SumsWithout(g.holders, i, c.total);
  }

  /** Without an execution of another job, the tests at the gate are the same; without the k-th test, they
      are the others. */
  lemma WithoutOther(xs: seq<A.Execution>, c: Setting, i: nat)
    requires i < |xs| && xs[i].id >= c.tests
    ensures Own(A.Without(xs, i), c.tests) == Own(xs, c.tests)
  {
    OwnSplit(xs, i, c.tests);
  }

  lemma WithoutOwn(xs: seq<A.Execution>, c: Setting, i: nat) returns (k: nat)
    requires i < |xs| && xs[i].id < c.tests
    ensures var own := Own(xs, c.tests);
            k < |own| && own[k] == xs[i].id && Own(A.Without(xs, i), c.tests) == own[..k] + own[k + 1..]
  {
    k := |Own(xs[..i], c.tests)|;
    OwnSplit(xs, i, c.tests);
  }

  lemma CancellingIsSound(g: A.Gate, c: Setting, i: nat)
    requires Sound(g, c) && i < |g.queue|
    ensures Sound(g.(queue := A.Without(g.queue, i)), c)
  {
  }

  lemma StartFits(s: State, c: Setting)
    requires Proper(c) && Fitted(s, c) && CanStep(s, c, Start)
    ensures Fitted(Before(s, c, Start), c) && Admitted(Before(s, c, Start), c) == Admitted(s, c)
  {
    ArrivalIsSound(s.gate, c, A.Execution(s.window.next, c.mem));
    MirrorsStart(s.window, Own(s.gate.holders, c.tests), Own(s.gate.queue, c.tests), c);
  }

  lemma FinishFits(s: State, c: Setting, p: nat)
    requires Proper(c) && Fitted(s, c) && CanStep(s, c, Finish(p))
    ensures var i := s.gate.holders[p].id;
            && Fitted(Before(s, c, Finish(p)), c) && i in Admitted(s, c).inFlight
            && Admitted(Before(s, c, Finish(p)), c) == Moved(Admitted(s, c), Complete(i))
  {
    FreeingIsSound(s.gate, c, p);
    var g := s.gate;
    var k := WithoutOwn(g.holders, c, p);
    MirrorsFinish(s.window, Own(g.holders, c.tests), Own(Freed(g, p, c.total).holders, c.tests),
                  k, Own(g.queue, c.tests), c);
  }

  lemma OtherFits(s: State, c: Setting, e: A.Event)
    requires Proper(c) && Fitted(s, c) && CanStep(s, c, Other(e))
    ensures Fitted(Before(s, c, Other(e)), c) && Admitted(Before(s, c, Other(e)), c) == Admitted(s, c)
  {
    match e
    case Arrive(x) => ArrivalIsSound(s.gate, c, x);
    case Complete(i) =>
      FreeingIsSound(s.gate, c, i);
      WithoutOther(s.gate.holders, c, i);
    case Cancel(i) =>
      CancellingIsSound(s.gate, c, i);
      WithoutOther(s.gate.queue, c, i);
  }

  /** Every run is, for the admitted tests, a schedule of the narrower window. */
  lemma {:induction false} RunIsSchedule(ss: seq<State>, steps: seq<Step>, c: Setting, k: nat)
    returns (ws: seq<Window>, ms: seq<Move>)
    requires Proper(c) && Run(ss, steps, c) && k < |ss|
    ensures Fitted(ss[k], c) && Schedule(ws, ms, c.tests, Width(c)) && ws[|ms|] == Admitted(ss[k], c)
  {
    if k == 0 {
      ws, ms := [Window(0, {}, [])], [];
    } else {
      ws, ms := RunIsSchedule(ss, steps, c, k - 1);
      var s, step := ss[k - 1], steps[k - 1];
      StepAdmits(s, c, step);
      match step {
        case Start => StartFits(s, c);
        case Finish(p) =>
          FinishFits(s, c, p);
          ws, ms := Play(ws, ms, c.tests, Width(c), Complete(s.gate.holders[p].id));
        case Other(e) => OtherFits(s, c, e);
      }
      ws, ms := AdmitStarts(Before(s, c, step), c, ws, ms);
    }
  }

  // ----- every schedule of that width happens -----

  /** No other job is at the gate, and no test waits. */
  predicate Alone(g: A.Gate, c: Setting) {
    g.queue == [] && forall p | 0 <= p < |g.holders| :: g.holders[p].id < c.tests
  }

  lemma {:induction false} AllOwn(xs: seq<A.Execution>, c: Setting)
    requires Proper(c) && SameLimit(xs, c) && forall p | 0 <= p < |xs| :: xs[p].id < c.tests
    ensures |Own(xs, c.tests)| == |xs| && forall p | 0 <= p < |xs| :: Own(xs, c.tests)[p] == xs[p].id
    ensures A.HeldUnits(xs, c.total) == |xs| * Units(c)
  {
    if xs != [] {
      AllOwn(xs[..|xs| - 1], c);
      OneMore(|xs| - 1, Units(c));
    }
  }

  lemma AloneInFlight(s: State, c: Setting)
    requires Proper(c) && Fitted(s, c) && Alone(s.gate, c)
    ensures |s.gate.holders| == |s.window.inFlight|
    ensures s.gate.available == c.total - |s.gate.holders| * Units(c)
    ensures forall i | i in s.window.inFlight :: exists p :: 0 <= p < |s.gate.holders| && s.gate.holders[p].id == i
  {
    AllOwn(s.gate.holders, c);
    DistinctSize(Own(s.gate.holders, c.tests));
    assert s.window.inFlight == ToSet(Own(s.gate.holders, c.tests));
  }

  lemma AdmitsSole(g: A.Gate, x: A.Execution, total: nat)
    requires g.queue == [] && A.UnitsFor(x.mem, total) <= g.available
    ensures A.Admit(Arrived(g, x), total) == A.Gate(g.available - A.UnitsFor(x.mem, total), [], g.holders + [x])
  {
    assert Arrived(g, x).queue[1..] == [];
  }

  lemma RoomForOne(k: nat, u: nat, total: nat)
    requires u > 0 && k < total / u
    ensures u <= total - k * u
  {
    Quotient(k + 1, u, total);
    OneMore(k, u);
  }

  lemma StartsAlone(s: State, c: Setting)
    requires Proper(c) && Fitted(s, c) && Alone(s.gate, c) && CanMove(s.window, c.tests, Width(c), StartNext)
    ensures CanStep(s, c, Start) && Stepped(s, c, Start).window == Moved(s.window, StartNext)
    ensures Alone(Stepped(s, c, Start).gate, c)
  {
    AloneInFlight(s, c);
    RoomForOne(|s.gate.holders|, Units(c), c.total);
    AdmitsSole(s.gate, A.Execution(s.window.next, c.mem), c.total);
  }

  lemma FinishesAlone(s: State, c: Setting, i: nat) returns (p: nat)
    requires Proper(c) && Fitted(s, c) && Alone(s.gate, c) && CanMove(s.window, c.tests, Width(c), Complete(i))
    ensures CanStep(s, c, Finish(p)) && Stepped(s, c, Finish(p)).window == Moved(s.window, Complete(i))
    ensures Alone(Stepped(s, c, Finish(p)).gate, c)
  {
    AloneInFlight(s, c);
    p :| 0 <= p < |s.gate.holders| && s.gate.holders[p].id == i;
    StepAdmits(s, c, Finish(p));
  }

  /** ... and without any help or hindrance from other jobs. */
  lemma {:induction false} ScheduleIsRun(ws: seq<Window>, ms: seq<Move>, c: Setting, k: nat)
    returns (ss: seq<State>, steps: seq<Step>)
    requires Proper(c) && Schedule(ws, ms, c.tests, Width(c)) && k < |ws|
    ensures Run(ss, steps, c) && ss[|steps|].window == ws[k] && Alone(ss[|steps|].gate, c)
    ensures forall j | 0 <= j < |steps| :: !steps[j].Other?
  {
    if k == 0 {
      ss, steps := [State(Window(0, {}, []), A.Gate(c.total, [], []))], [];
    } else {
      ss, steps := ScheduleIsRun(ws, ms, c, k - 1);
      var s := ss[|steps|];
      var _, _ := RunIsSchedule(ss, steps, c, |steps|);
      assert ws[k] == Moved(ws[k - 1], ms[k - 1]);
      var step := Start;
      match ms[k - 1] {
        case StartNext => StartsAlone(s, c);
        case Complete(i) =>
          var p := FinishesAlone(s, c, i);
          step := Finish(p);
      }
      ss, steps := ss + [Stepped(s, c, step)], steps + [step];
    }
  }

  // ----- the orders and verdicts of a job -----

  /** The job's tests can complete in this order, in some run with other jobs. */
  ghost predicate CanComplete(order: seq<nat>, c: Setting) {
    exists ss: seq<State>, steps: seq<Step> :: Run(ss, steps, c) && ss[|steps|].window == Window(c.tests, {}, order)
  }

  /** What other jobs do at the gate, and how the semaphore admits, matters only by this number: the
      orders of completion are those of a window as wide as the tests that can run at once. */
  lemma GateNarrowsWindow(order: seq<nat>, c: Setting)
    requires Proper(c) && |order| == c.tests
    ensures CanComplete(order, c) <==> exists ws: seq<Window>, ms: seq<Move> :: Completes(ws, ms, Width(c), order)
  {
    if ss: seq<State>, steps: seq<Step> :| Run(ss, steps, c) && ss[|steps|].window == Window(c.tests, {}, order) {
      var ws, ms := RunIsSchedule(ss, steps, c, |steps|);
      NothingWaits(ss[|steps|], c);
      assert Completes(ws, ms, Width(c), order);
    }
    if ws: seq<Window>, ms: seq<Move> :| Completes(ws, ms, Width(c), order) {
      var ss, steps := ScheduleIsRun(ws, ms, c, |ms|);
      assert Run(ss, steps, c) && ss[|steps|].window == Window(c.tests, {}, order);
    }
  }

  lemma NothingWaits(s: State, c: Setting)
    requires Fitted(s, c) && s.window.inFlight == {}
    ensures Admitted(s, c) == s.window
  {
    var hs, qs := Own(s.gate.holders, c.tests), Own(s.gate.queue, c.tests);
    assert hs != [] ==> hs[0] in ToSet(hs);
    assert qs != [] ==> s.window.next - 1 in s.window.inFlight;
  }

  /** Exactly which orders of completion a job can see: those in which no test is as many places early
      as tests can run at once. */
  lemma OrdersIff(order: seq<nat>, c: Setting)
    requires Proper(c) && |order| == c.tests
    ensures CanComplete(order, c)
       <==> IsPermutation(order, c.tests) && forall k | 0 <= k < |order| :: order[k] < k + Width(c)
  {
    GateNarrowsWindow(order, c);
    OrderHappensIff(order, Width(c));
  }

  /** Every order happens exactly if all tests can run at once. */
  lemma EveryOrderIff(c: Setting)
    requires Proper(c)
    ensures (forall order: seq<nat> :: IsPermutation(order, c.tests) ==> CanComplete(order, c)) <==> c.tests <= Width(c)
  {
    if c.tests <= Width(c) {
      forall order: seq<nat> | IsPermutation(order, c.tests) ensures CanComplete(order, c) {
        OrdersIff(order, c);
      }
    } else {
      var order := [c.tests - 1] + seq(c.tests - 1, i requires 0 <= i => i);
      assert IsPermutation(order, c.tests) && order[0] >= Width(c);
      OrdersIff(order, c);
    }
  }

  /** The setting is that of the job: its tests, and their memory limit. */
  predicate Runs(c: Setting, job: Job) {
    Proper(c) && c.tests == |job.tests|
  }

  /** Some run, with whatever other jobs, makes `verdict` the job's. */
  ghost predicate Possible(job: Job, runs: Pipeline.Runs, base: JobResult, c: Setting, verdict: JudgeVerdict) {
    exists order: seq<nat> ::
      |order| == c.tests && CanComplete(order, c) && Gives(job, runs, base, order, verdict)
  }

  lemma PossibleAtWidth(job: Job, runs: Pipeline.Runs, base: JobResult, c: Setting, verdict: JudgeVerdict)
    requires Runs(c, job) && Stops(job, runs, base)
    ensures Possible(job, runs, base, c, verdict) <==> Stopping.Possible(job, runs, base, Width(c), verdict)
  {
    if Possible(job, runs, base, c, verdict) {
      var order: seq<nat> :| |order| == c.tests && CanComplete(order, c) && Gives(job, runs, base, order, verdict);
      GateNarrowsWindow(order, c);
      var ws: seq<Window>, ms: seq<Move> :| Completes(ws, ms, Width(c), order);
      assert Finished(ws, ms, |runs|, Width(c));
    }
    if Stopping.Possible(job, runs, base, Width(c), verdict) {
      var ws: seq<Window>, ms: seq<Move> :|
        Finished(ws, ms, |runs|, Width(c)) && Gives(job, runs, base, ws[|ms|].done, verdict);
      CompleteSchedule(ws, ms, c.tests, Width(c));
      assert Completes(ws, ms, Width(c), ws[|ms|].done);
      GateNarrowsWindow(ws[|ms|].done, c);
    }
  }

  /** Only runs to the end are asked for: one that is cut short at its first failing test, as the code does,
      gives a verdict that some run to the end gives as well. */
  lemma CutShortIsPossible(job: Job, runs: Pipeline.Runs, base: JobResult, c: Setting,
      ss: seq<State>, steps: seq<Step>, p: nat)
    requires Runs(c, job) && Stops(job, runs, base) && Run(ss, steps, c)
    requires var done := ss[|steps|].window.done;
             && p + 1 == |done| && Fits(job, runs, done) && Fails(job, runs, done[p])
             && forall k | 0 <= k < p :: !Fails(job, runs, done[k])
    ensures Possible(job, runs, base, c, VerdictAt(job, runs, ss[|steps|].window.done[p]))
  {
    var ws, ms := RunIsSchedule(ss, steps, c, |steps|);
    var done := ss[|steps|].window.done;
    ws, ms := Drain(ws, ms, c.tests, Width(c));
    CompleteSchedule(ws, ms, c.tests, Width(c));
    var order := ws[|ms|].done;
    assert forall k | 0 <= k <= p :: order[k] == done[k];
    FirstFailureDecides(job, runs, base, order, p);
    PossibleAtWidth(job, runs, base, c, VerdictAt(job, runs, done[p]));
  }

  /** Exactly which verdicts a stopped job can have: that of a failing test with fewer failing tests
      before it than can run at once, or Accepted if none fails. */
  lemma PossibleVerdicts(job: Job, runs: Pipeline.Runs, base: JobResult, c: Setting, verdict: JudgeVerdict)
    requires Runs(c, job) && Stops(job, runs, base)
    ensures Possible(job, runs, base, c, verdict)
       <==> if verdict == Accepted then forall i | 0 <= i < |runs| :: !Fails(job, runs, i)
            else exists i :: 0 <= i < |runs| && VerdictAt(job, runs, i) == verdict
                             && |FailingBefore(job, runs, i)| < Width(c)
  {
    PossibleAtWidth(job, runs, base, c, verdict);
    VerdictsOfWindow(job, runs, base, Width(c), verdict);
  }

  /** If all tests can run at once, every failing test's verdict is possible ... */
  lemma WideVerdicts(job: Job, runs: Pipeline.Runs, base: JobResult, c: Setting, verdict: JudgeVerdict)
    requires Runs(c, job) && Stops(job, runs, base) && c.tests <= Width(c) && verdict != Accepted
    ensures Possible(job, runs, base, c, verdict) <==> exists i :: 0 <= i < |runs| && VerdictAt(job, runs, i) == verdict
  {
    PossibleVerdicts(job, runs, base, c, verdict);
    if i :| 0 <= i < |runs| && VerdictAt(job, runs, i) == verdict {
      SubsetSize(FailingBefore(job, runs, i), Below(i));
    }
  }

  /** ... and if one test alone takes more than half of the budget, or the machine has one core, only the
      first failing test's. */
  lemma NarrowVerdict(job: Job, runs: Pipeline.Runs, base: JobResult, c: Setting, verdict: JudgeVerdict)
    requires Runs(c, job) && Stops(job, runs, base) && verdict != Accepted
    requires c.window == 1 || 2 * Units(c) > c.total
    ensures Possible(job, runs, base, c, verdict)
       <==> exists i :: 0 <= i < |runs| && VerdictAt(job, runs, i) == verdict
                        && forall j | 0 <= j < i :: !Fails(job, runs, j)
  {
    Quotient(2, Units(c), c.total);
    PossibleVerdicts(job, runs, base, c, verdict);
    forall i | 0 <= i < |runs|
      ensures |FailingBefore(job, runs, i)| < 1 <==> forall j | 0 <= j < i :: !Fails(job, runs, j)
    {
      if j :| 0 <= j < i && Fails(job, runs, j) {
        SubsetSize({j}, FailingBefore(job, runs, i));
      } else {
        assert FailingBefore(job, runs, i) == {};
      }
    }
  }
}
