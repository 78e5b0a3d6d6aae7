/** Memory admission, src/sandbox/admission.rs: executions hold units of 256 MB of a global budget,
    handed out by a fair semaphore. Machine integers are modelled where they wrap or truncate. */
module Admission {
  import opened Prelude

  const UNIT: nat := 268_435_456  // 256 MB
  const TWO_32: nat := 0x1_0000_0000

  /** total_units: as many whole units as fit in the budget, at least one. */
  function TotalUnits(budgetBytes: nat): (units: nat)
    ensures units >= 1
    ensures if budgetBytes < UNIT then units == 1 else units * UNIT <= budgetBytes < (units + 1) * UNIT
  {
    Max(budgetBytes / UNIT, 1)
  }

  /** units_for on u64 with the release build's wrap-around, and the cast to u32. */
  function UnitsFor(mem: nat, total: nat): nat {
    Min(Max((mem + UNIT - 1) % TWO_64 / UNIT, 1), total) % TWO_32
  }

  /** The units reserve the memory, or they are the whole budget. */
  predicate Accounted(mem: nat, total: nat) {
    1 <= UnitsFor(mem, total) <= total && (mem <= UnitsFor(mem, total) * UNIT || UnitsFor(mem, total) == total)
  }

  /** The smallest number of units that holds `mem`. */
  predicate IsCeiling(mem: nat, units: nat) {
    mem <= units * UNIT && (units == 0 || (units - 1) * UNIT < mem)
  }

  lemma CeilingOfSum(mem: nat)
    ensures IsCeiling(mem, (mem + UNIT - 1) / UNIT)
  {
  }

  /** units_for rounds up and clamps to the budget, as its callers rely on, unless an addition wraps or
      a budget of 2^32 units and more is truncated. */
  lemma UnitsRoundUpAndClamp(mem: nat, total: nat, units: nat)
    requires mem + UNIT - 1 < TWO_64 && 1 <= total && IsCeiling(mem, units)
    requires total < TWO_32 || units < TWO_32
    ensures UnitsFor(mem, total) == Min(Max(units, 1), total)
    ensures Accounted(mem, total)
  {
  }

  /** The accounting of a requested u64 amount fails exactly when the rounding addition wraps while the
      budget is more than a unit, or the unit count is truncated. */
  lemma WrapBreaksAccounting(mem: nat, total: nat)
    requires mem < TWO_64 && 1 < total < TWO_32 && total * UNIT < TWO_64
    ensures Accounted(mem, total) <==> mem + UNIT - 1 < TWO_64
  {
  }

  // ----- the semaphore -----

  datatype Execution = Execution(id: nat, mem: nat)

  /** tokio's semaphore is fair: released units go to the waiter at the head of the queue first, so a
      later request never overtakes an earlier one. */
  datatype Gate = Gate(available: int, queue: seq<Execution>, holders: seq<Execution>)

  datatype Event =
    | Arrive(execution: Execution)   // Sandbox::execute asks for its units, holding none
    | Complete(i: nat)               // the i-th holder ends and returns them
    | Cancel(i: nat)                 // the i-th waiter is dropped, as stop-on-fail does

  function Admit(g: Gate, total: nat): Gate
    decreases |g.queue|
  {
    if g.queue != [] && UnitsFor(g.queue[0].mem, total) <= g.available then
      Admit(Gate(g.available - UnitsFor(g.queue[0].mem, total), g.queue[1..], g.holders + [g.queue[0]]), total)
    else g
  }

  predicate Enabled(g: Gate, e: Event) {
    match e
    case Arrive(_) => true
    case Complete(i) => i < |g.holders|
    case Cancel(i) => i < |g.queue|
  }

  function Without(xs: seq<Execution>, i: nat): seq<Execution>
    requires i < |xs|
  {
    xs[..i] + xs[i + 1..]
  }

  function Do(g: Gate, e: Event, total: nat): Gate
    requires Enabled(g, e)
  {
    match e
    case Arrive(x) => Admit(g.(queue := g.queue + [x]), total)
    case Complete(i) =>
      Admit(g.(available := g.available + UnitsFor(g.holders[i].mem, total), holders := Without(g.holders, i)), total)
    case Cancel(i) => Admit(g.(queue := Without(g.queue, i)), total)
  }

  ghost predicate Run(gs: seq<Gate>, es: seq<Event>, total: nat) {
    && |gs| == |es| + 1 && gs[0] == Gate(total, [], [])
    && forall i | 0 <= i < |es| :: Enabled(gs[i], es[i]) && gs[i + 1] == Do(gs[i], es[i], total)
  }

  function HeldUnits(xs: seq<Execution>, total: nat): nat {
    if xs == [] then 0 else HeldUnits(xs[..|xs| - 1], total) + UnitsFor(xs[|xs| - 1].mem, total)
  }

  function HeldMemory(xs: seq<Execution>): nat {
    if xs == [] then 0 else HeldMemory(xs[..|xs| - 1]) + xs[|xs| - 1].mem
  }

  lemma {:induction false} SumsConcat(xs: seq<Execution>, ys: seq<Execution>, total: nat)
    ensures HeldUnits(xs + ys, total) == HeldUnits(xs, total) + HeldUnits(ys, total)
    ensures HeldMemory(xs + ys) == HeldMemory(xs) + HeldMemory(ys)
    decreases |ys|
  {
    if ys == [] {
      assert xs + ys == xs;
    } else {
      assert (xs + ys)[..|xs + ys| - 1] == xs + ys[..|ys| - 1];
      SumsConcat(xs, ys[..|ys| - 1], total);
    }
  }

  lemma SumsWithout(xs: seq<Execution>, i: nat, total: nat)
    requires i < |xs|
    ensures HeldUnits(xs, total) == HeldUnits(Without(xs, i), total) + UnitsFor(xs[i].mem, total)
  {
    assert xs == xs[..i] + ([xs[i]] + xs[i + 1..]);
    SumsConcat(xs[..i], [xs[i]] + xs[i + 1..], total);
    SumsConcat([xs[i]], xs[i + 1..], total);
    SumsConcat(xs[..i], xs[i + 1..], total);
    assert [xs[i]][..0] == [];
  }

  predicate Fair(total: nat, xs: seq<Execution>) {
    forall i | 0 <= i < |xs| :: 1 <= UnitsFor(xs[i].mem, total) <= total
  }

  predicate Balanced(g: Gate, total: nat) {
    && 0 <= g.available && g.available + HeldUnits(g.holders, total) == total
    && Fair(total, g.queue) && Fair(total, g.holders)
  }

  /** Nobody who fits is left waiting at the head. */
  predicate Settled(g: Gate, total: nat) {
    g.queue != [] ==> UnitsFor(g.queue[0].mem, total) > g.available
  }

  lemma {:induction false} AdmitSettles(g: Gate, total: nat)
    requires Balanced(g, total)
    ensures Balanced(Admit(g, total), total) && Settled(Admit(g, total), total)
    decreases |g.queue|
  {
    if g.queue != [] && UnitsFor(g.queue[0].mem, total) <= g.available {
      var x := g.queue[0];
      var g' := Gate(g.available - UnitsFor(x.mem, total), g.queue[1..], g.holders + [x]);
      assert g'.holders[..|g.holders|] == g.holders;
      AdmitSettles(g', total);
    }
  }

  /** Admission moves the boundary between holders and waiters, and nobody past anybody. */
  lemma {:induction false} AdmitKeepsOrder(g: Gate, total: nat)
    ensures Admit(g, total).holders + Admit(g, total).queue == g.holders + g.queue
    decreases |g.queue|
  {
    if g.queue != [] && UnitsFor(g.queue[0].mem, total) <= g.available {
      var g' := Gate(g.available - UnitsFor(g.queue[0].mem, total), g.queue[1..], g.holders + [g.queue[0]]);
      AdmitKeepsOrder(g', total);
      assert g'.holders + g'.queue == g.holders + g.queue;
    }
  }

  lemma CompleteSettles(g: Gate, i: nat, total: nat)
    requires Balanced(g, total) && i < |g.holders|
    ensures Balanced(Do(g, Complete(i), total), total) && Settled(Do(g, Complete(i), total), total)
  {
    SumsWithout(g.holders, i, total);
    var freed := g.available + UnitsFor(g.holders[i].mem, total);
    AdmitSettles(g.(available := freed, holders := Without(g.holders, i)), total);
  }

  lemma StepSettles(g: Gate, e: Event, total: nat)
    requires Balanced(g, total) && Enabled(g, e) && (e.Arrive? ==> 1 <= UnitsFor(e.execution.mem, total) <= total)
    ensures Balanced(Do(g, e, total), total) && Settled(Do(g, e, total), total)
  {
    match e
    case Arrive(x) => AdmitSettles(g.(queue := g.queue + [x]), total);
    case Complete(i) => CompleteSettles(g, i, total);
    case Cancel(i) => AdmitSettles(g.(queue := Without(g.queue, i)), total);
  }

  /** Every request is for at most `cap` bytes, and is accounted for. */
  ghost predicate Capped(es: seq<Event>, total: nat, cap: nat) {
    forall i | 0 <= i < |es| && es[i].Arrive? :: es[i].execution.mem <= cap && Accounted(es[i].execution.mem, total)
  }

  lemma {:induction false} RunSettles(gs: seq<Gate>, es: seq<Event>, total: nat, cap: nat, k: nat)
    requires Run(gs, es, total) && Capped(es, total, cap) && k < |gs|
    ensures Balanced(gs[k], total) && Settled(gs[k], total)
  {
    if k > 0 {
      RunSettles(gs, es, total, cap, k - 1);
      StepSettles(gs[k - 1], es[k - 1], total);
    }
  }

  // ----- no deadlock, no starvation -----

  /** Admission never deadlocks: as long as anybody waits, somebody holds units and can complete. */
  lemma WaitersHaveHolders(gs: seq<Gate>, es: seq<Event>, total: nat, cap: nat, k: nat)
    requires Run(gs, es, total) && Capped(es, total, cap) && k < |gs|
    ensures gs[k].queue != [] ==> gs[k].holders != []
  {
    RunSettles(gs, es, total, cap, k);
  }

  /** Where the execution of rank r, counting holders and then waiters, is after the event; nowhere if
      the event ends it. */
  function NextRank(g: Gate, e: Event, r: nat): Option<nat>
    requires Enabled(g, e)
  {
    match e
    case Arrive(_) => Some(r)
    case Complete(i) => if i < r then Some(r - 1) else if i == r then None else Some(r)
    case Cancel(i) =>
      var c := |g.holders| + i;
      if c < r then Some(r - 1) else if c == r then None else Some(r)
  }

  lemma RankFollows(g: Gate, e: Event, total: nat, r: nat)
    requires Enabled(g, e) && r < |g.holders| + |g.queue| && NextRank(g, e, r).Some?
    ensures var g', r' := Do(g, e, total), NextRank(g, e, r).value;
            r' < |g'.holders| + |g'.queue| && (g'.holders + g'.queue)[r'] == (g.holders + g.queue)[r]
  {
    match e
    case Arrive(x) =>
      AdmitKeepsOrder(g.(queue := g.queue + [x]), total);
      assert g.holders + (g.queue + [x]) == g.holders + g.queue + [x];
    case Complete(i) =>
      var g1 := g.(available := g.available + UnitsFor(g.holders[i].mem, total), holders := Without(g.holders, i));
      AdmitKeepsOrder(g1, total);
      assert (g1.holders + g1.queue)[NextRank(g, e, r).value] == (g.holders + g.queue)[r];
    case Cancel(i) =>
      var g1 := g.(queue := Without(g.queue, i));
      AdmitKeepsOrder(g1, total);
      assert (g1.holders + g1.queue)[NextRank(g, e, r).value] == (g.holders + g.queue)[r];
  }

  /** What became of an execution that waited. */
  datatype Status = Waiting(rank: nat) | Admitted | Cancelled

  /** A waiter that is not cancelled by the event is among the holders after it, or waits on. */
  function NextStatus(g: Gate, e: Event, total: nat, status: Status): Status
    requires Enabled(g, e)
  {
    if !status.Waiting? then status
    else
      match NextRank(g, e, status.rank)
      case None => Cancelled
      case Some(r) => if r < |Do(g, e, total).holders| then Admitted else Waiting(r)
  }

  /** The status at k of the execution that has rank r at i. */
  function StatusAt(gs: seq<Gate>, es: seq<Event>, total: nat, i: nat, k: nat, r: nat): Status
    requires Run(gs, es, total) && i <= k < |gs|
    decreases k
  {
    if k == i then Waiting(r)
    else NextStatus(gs[k - 1], es[k - 1], total, StatusAt(gs, es, total, i, k - 1, r))
  }

  predicate Waits(g: Gate, r: nat) {
    |g.holders| <= r < |g.holders| + |g.queue|
  }

  function Completions(es: seq<Event>, i: nat, k: nat): nat
    requires i <= k <= |es|
    decreases k
  {
    if i == k then 0 else Completions(es, i, k - 1) + (if es[k - 1].Complete? then 1 else 0)
  }

  /** A waiter is cancelled by the Cancel of its place and by nothing else. Otherwise it is found, as the
      same execution, among the holders or among the waiters, and each completion moves it up. */
  lemma WaiterStep(g: Gate, e: Event, total: nat, r: nat)
    requires Enabled(g, e) && Waits(g, r)
    ensures var g', status := Do(g, e, total), NextStatus(g, e, total, Waiting(r));
            && (status.Cancelled? <==> e.Cancel? && |g.holders| + e.i == r)
            && (status.Admitted? ==> (g.holders + g.queue)[r] in g'.holders)
            && (status.Waiting? ==>
                  Waits(g', status.rank) && (g'.holders + g'.queue)[status.rank] == (g.holders + g.queue)[r]
                  && status.rank + (if e.Complete? then 1 else 0) <= r)
  {
    if NextRank(g, e, r).Some? {
      RankFollows(g, e, total, r);
      var g', r' := Do(g, e, total), NextRank(g, e, r).value;
      assert r' < |g'.holders| ==> (g'.holders + g'.queue)[r'] == g'.holders[r'];
    }
  }

  lemma {:induction false} WaiterMovesUp(gs: seq<Gate>, es: seq<Event>, total: nat, i: nat, k: nat, r: nat)
    requires Run(gs, es, total) && i <= k < |gs| && Waits(gs[i], r)
    ensures var status := StatusAt(gs, es, total, i, k, r);
            status.Waiting? ==> Waits(gs[k], status.rank) && status.rank + Completions(es, i, k) <= r
  {
    if i < k {
      WaiterMovesUp(gs, es, total, i, k - 1, r);
      var status := StatusAt(gs, es, total, i, k - 1, r);
      if status.Waiting? {
        WaiterStep(gs[k - 1], es[k - 1], total, status.rank);
      }
    }
  }

  /** No starvation: an execution that waits with r executions ahead of it, holders and earlier waiters,
      is admitted or cancelled by the time r executions completed, whatever arrives or is cancelled
      meanwhile. */
  lemma WaitIsBounded(gs: seq<Gate>, es: seq<Event>, total: nat, cap: nat, i: nat, k: nat, r: nat)
    requires Run(gs, es, total) && Capped(es, total, cap) && i <= k < |gs| && Waits(gs[i], r)
    requires Completions(es, i, k) >= r
    ensures !StatusAt(gs, es, total, i, k, r).Waiting?
  {
    WaiterMovesUp(gs, es, total, i, k, r);
    WaitersHaveHolders(gs, es, total, cap, k);
  }

  // ----- the memory bound -----

  predicate AllWithin(xs: seq<Execution>, total: nat, cap: nat) {
    forall i | 0 <= i < |xs| :: xs[i].mem <= cap && Accounted(xs[i].mem, total)
  }

  lemma {:induction false} RunStaysWithin(gs: seq<Gate>, es: seq<Event>, total: nat, cap: nat, k: nat)
    requires Run(gs, es, total) && Capped(es, total, cap) && k < |gs|
    ensures AllWithin(gs[k].holders + gs[k].queue, total, cap)
  {
    if k > 0 {
      RunStaysWithin(gs, es, total, cap, k - 1);
      var g, e := gs[k - 1], es[k - 1];
      var g1 := match e
                case Arrive(x) => g.(queue := g.queue + [x])
                case Complete(i) =>
                  g.(available := g.available + UnitsFor(g.holders[i].mem, total), holders := Without(g.holders, i))
                case Cancel(i) => g.(queue := Without(g.queue, i));
      AdmitKeepsOrder(g1, total);
      var xs, ys := g.holders + g.queue, g1.holders + g1.queue;
      forall j | 0 <= j < |ys| ensures ys[j].mem <= cap && Accounted(ys[j].mem, total) {
        assert ys[j] in xs || (e.Arrive? && ys[j] == e.execution);
      }
    }
  }

  /** Units bound memory as long as nobody is clamped. */
  lemma {:induction false} UnitsBoundMemory(xs: seq<Execution>, total: nat)
    requires forall i | 0 <= i < |xs| :: xs[i].mem <= UnitsFor(xs[i].mem, total) * UNIT
    ensures HeldMemory(xs) <= HeldUnits(xs, total) * UNIT
  {
    if xs != [] {
      UnitsBoundMemory(xs[..|xs| - 1], total);
    }
  }

  lemma {:induction false} EachHoldsAUnit(xs: seq<Execution>, total: nat, i: nat)
    requires Fair(total, xs) && i < |xs|
    ensures HeldUnits(xs, total) >= UnitsFor(xs[i].mem, total) + |xs| - 1
  {
    if i < |xs| - 1 {
      EachHoldsAUnit(xs[..|xs| - 1], total, i);
    } else if |xs| > 1 {
      EachHoldsAUnit(xs[..|xs| - 1], total, |xs| - 2);
    }
  }

  /** The memory bound: in every reachable state the executions that hold units have limits of at most
      the whole budget in units together, or a single one holds all units and runs alone. */
  lemma HeldMemoryIsBounded(gs: seq<Gate>, es: seq<Event>, total: nat, cap: nat, k: nat)
    requires Run(gs, es, total) && Capped(es, total, cap) && k < |gs|
    ensures HeldMemory(gs[k].holders) <= total * UNIT || |gs[k].holders| == 1
    ensures HeldMemory(gs[k].holders) <= Max(total * UNIT, cap)
    ensures |gs[k].holders| <= total
  {
    RunSettles(gs, es, total, cap, k);
    RunStaysWithin(gs, es, total, cap, k);
    var xs := gs[k].holders;
    assert forall i | 0 <= i < |xs| :: xs[i] == (gs[k].holders + gs[k].queue)[i];
    if |xs| == 1 {
      assert xs[..0] == [] && HeldMemory(xs) == xs[0].mem;
      EachHoldsAUnit(xs, total, 0);
    } else {
      forall i | 0 <= i < |xs| ensures xs[i].mem <= UnitsFor(xs[i].mem, total) * UNIT {
        EachHoldsAUnit(xs, total, i);
      }
      UnitsBoundMemory(xs, total);
      assert HeldUnits(xs, total) * UNIT <= total * UNIT;
      if |xs| > 1 {
        EachHoldsAUnit(xs, total, 0);
      }
    }
  }

  /** No reachable state has more memory admitted than `budget`, when requests are for at most `cap`. */
  ghost predicate NeverExceeds(budget: nat, total: nat, cap: nat) {
    forall gs: seq<Gate>, es: seq<Event>, k: nat ::
      Run(gs, es, total) && Capped(es, total, cap) && k < |gs| ==> HeldMemory(gs[k].holders) <= budget
  }

  lemma AdmitSingle(g: Gate, total: nat, x: Execution)
    requires g.queue == [x] && UnitsFor(x.mem, total) <= g.available
    ensures Admit(g, total).holders == g.holders + [x]
  {
  }

  lemma OneRequest(total: nat, cap: nat) returns (gs: seq<Gate>, es: seq<Event>)
    requires Accounted(cap, total)
    ensures Run(gs, es, total) && Capped(es, total, cap) && |gs| == 2 && HeldMemory(gs[1].holders) == cap
  {
    var x := Execution(0, cap);
    var start := Gate(total, [], []);
    var arrived := start.(queue := start.queue + [x]);
    AdmitSingle(arrived, total, x);
    gs, es := [start, Admit(arrived, total)], [Arrive(x)];
    assert gs[1].holders == [x] && [x][..0] == [] && HeldMemory([x]) == cap;
  }

  /** JUDGE_MEM_BUDGET_BYTES is documented as a bound that the combined memory limits never exceed.
      They never do exactly if no single execution may be larger than the budget: the deployment must
      keep the per-job and compile-phase ceilings within it. */
  lemma BudgetIsBoundIff(budget: nat, cap: nat)
    requires cap + UNIT - 1 < TWO_64 && TotalUnits(budget) < TWO_32
    ensures NeverExceeds(budget, TotalUnits(budget), cap) <==> cap <= budget
  {
    var total := TotalUnits(budget);
    if cap <= budget {
      forall gs: seq<Gate>, es: seq<Event>, k: nat | Run(gs, es, total) && Capped(es, total, cap) && k < |gs|
        ensures HeldMemory(gs[k].holders) <= budget
      {
        HeldMemoryIsBounded(gs, es, total, cap, k);
        HeldMemoryAlone(gs, es, total, cap, k);
      }
    } else {
      CeilingOfSum(cap);
      UnitsRoundUpAndClamp(cap, total, (cap + UNIT - 1) / UNIT);
      var gs, es := OneRequest(total, cap);
      assert HeldMemory(gs[1].holders) > budget;
    }
  }

  lemma HeldMemoryAlone(gs: seq<Gate>, es: seq<Event>, total: nat, cap: nat, k: nat)
    requires Run(gs, es, total) && Capped(es, total, cap) && k < |gs|
    ensures |gs[k].holders| <= 1 ==> HeldMemory(gs[k].holders) <= cap
  {
    RunStaysWithin(gs, es, total, cap, k);
    var xs := gs[k].holders;
    if |xs| == 1 {
      assert xs[0] == (gs[k].holders + gs[k].queue)[0];
      assert xs[..0] == [];
    }
  }
}
