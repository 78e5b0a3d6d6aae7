/**
 The child reaper of src/sandbox/reaper.rs: a registry from pid to slot, filled by the only caller of
 wait4, and read by the supervisor that owns the slot.
 */
module Reaper {
  import opened Prelude

  /** A wait4 status word and the part of rusage that is used. */
  datatype ChildExit = ChildExit(status: int, cpuTimeUs: nat, maxRssKb: nat)

  /** The registry and the contents of all slots ever made. */
  datatype Table<S(==)> = Table(registry: map<int, S>, slots: map<S, Option<ChildExit>>)

  function Registered<S>(t: Table<S>, pid: int, slot: S): Table<S> {
    Table(t.registry[pid := slot], t.slots[slot := None])
  }

  function Stored<S>(t: Table<S>, slot: S, exit: ChildExit): Table<S> {
    t.(slots := t.slots[slot := Some(exit)])
  }

  /** The reaper collected a child: its exit goes to the slot registered for the pid, if any. */
  function Reaped<S>(t: Table<S>, pid: int, exit: ChildExit): Table<S> {
    if pid in t.registry then Stored(t, t.registry[pid], exit) else t
  }

  function ReapedAll<S>(t: Table<S>, terminated: seq<(int, ChildExit)>): Table<S> {
    if terminated == [] then t
    else
      var (pid, exit) := terminated[|terminated| - 1];
      Reaped(ReapedAll(t, terminated[..|terminated| - 1]), pid, exit)
  }

  /** No two pids share a slot, as every registration makes its own. */
  predicate OwnSlots<S(==)>(registry: map<int, S>) {
    forall p, q | p in registry && q in registry && registry[p] == registry[q] :: p == q
  }

  /** The i-th exit is the last one that was collected under the pid. */
  predicate IsLastExit(terminated: seq<(int, ChildExit)>, pid: int, i: nat) {
    i < |terminated| && terminated[i].0 == pid && forall j | i < j < |terminated| :: terminated[j].0 != pid
  }

  /** An exit was collected for the slot. */
  predicate IsReaped<S(==)>(registry: map<int, S>, terminated: seq<(int, ChildExit)>, slot: S) {
    exists i :: 0 <= i < |terminated| && terminated[i].0 in registry && registry[terminated[i].0] == slot
  }

  /** What a batch of exits does: a registered pid's slot holds the last exit that was collected under the
      pid, and all other slots and the registry are as before. */
  lemma {:induction false} ReapedAllStores<S>(t: Table<S>, terminated: seq<(int, ChildExit)>, pid: int, i: nat)
    requires OwnSlots(t.registry) && pid in t.registry && IsLastExit(terminated, pid, i)
    ensures var slot, slots := t.registry[pid], ReapedAll(t, terminated).slots;
            slot in slots && slots[slot] == Some(terminated[i].1)
    decreases |terminated|
  {
    var n := |terminated| - 1;
    ReapedAllKeeps(t, terminated[..n], t.registry[pid]);
    if i < n {
      ReapedAllStores(t, terminated[..n], pid, i);
    }
  }

  lemma {:induction false} ReapedAllKeeps<S>(t: Table<S>, terminated: seq<(int, ChildExit)>, slot: S)
    ensures ReapedAll(t, terminated).registry == t.registry
    ensures !IsReaped(t.registry, terminated, slot) ==>
              var slots := ReapedAll(t, terminated).slots;
              (slot in slots <==> slot in t.slots) && (slot in slots ==> slots[slot] == t.slots[slot])
    decreases |terminated|
  {
    if terminated != [] {
      var n := |terminated| - 1;
      ReapedAllKeeps(t, terminated[..n], slot);
      if IsReaped(t.registry, terminated[..n], slot) {
        var i :| 0 <= i < n && terminated[i].0 in t.registry && t.registry[terminated[i].0] == slot;
        assert IsReaped(t.registry, terminated, slot);
      }
    }
  }

  function Taken<S>(t: Table<S>, slot: S): Table<S> {
    t.(slots := t.slots[slot := None])
  }

  function Dropped<S>(t: Table<S>, pid: int): Table<S> {
    t.(registry := t.registry - {pid})
  }

  class Slot {
    var exit: Option<ChildExit>

    constructor ()
      ensures exit == None
    {
      exit := None;
    }
  }

  class SupervisedChild {
    const pid: int
    const slot: Slot

    constructor (pid: int, slot: Slot)
      ensures this.pid == pid && this.slot == slot
    {
      this.pid, this.slot := pid, slot;
    }
  }

  class Reaper {
    var registry: map<int, Slot>
    ghost var made: set<Slot>

    ghost predicate Valid()
      reads this
    {
      registry.Values <= made && OwnSlots(registry)
    }

    ghost function View(): Table<Slot>
      reads this, made
    {
      Table(registry, map s | s in made :: s.exit)
    }

    constructor ()
      ensures Valid() && View() == Table(map[], map[])
    {
      registry, made := map[], {};
    }

    method RegisterChild(pid: int) returns (child: SupervisedChild)
      requires Valid()
      modifies this
      ensures Valid() && child.pid == pid && fresh(child.slot) && made == old(made) + {child.slot}
      ensures View() == Registered(old(View()), pid, child.slot)
    {
      var slot := new Slot();
      registry := registry[pid := slot];
      made := made + {slot};
      child := new SupervisedChild(pid, slot);
    }

    method TryTake(child: SupervisedChild) returns (exit: Option<ChildExit>)
      requires Valid() && child.slot in made
      modifies child.slot
      ensures Valid() && exit == old(View()).slots[child.slot] && View() == Taken(old(View()), child.slot)
    {
      exit := child.slot.exit;
      child.slot.exit := None;
    }

    /** SupervisedChild::drop. */
    method DropChild(child: SupervisedChild)
      requires Valid()
      modifies this
      ensures Valid() && made == old(made) && View() == Dropped(old(View()), child.pid)
    {
      registry := registry - {child.pid};
    }

    /** reap_all: wait4 until no terminated child is left; `terminated` is what it returns. Afterwards
        each slot holds the last exit that was collected for it, or what it held before. */
    method ReapAll(terminated: seq<(int, ChildExit)>)
      requires Valid()
      modifies made
      ensures Valid() && View() == ReapedAll(old(View()), terminated) && registry == old(registry)
      ensures forall pid, i: nat | pid in registry && IsLastExit(terminated, pid, i) ::
                registry[pid].exit == Some(terminated[i].1)
      ensures forall slot | slot in made && !IsReaped(registry, terminated, slot) :: slot.exit == old(slot.exit)
    {
      assert terminated[..0] == [];
      for i := 0 to |terminated|
        invariant Valid() && View() == ReapedAll(old(View()), terminated[..i])
      {
        var (pid, exit) := terminated[i];
        if pid in registry {
          registry[pid].exit := Some(exit);
        }
        assert terminated[..i + 1][..i] == terminated[..i];
      }
      assert terminated[..|terminated|] == terminated;
      ghost var before := old(View());
      forall pid, i: nat | pid in registry && IsLastExit(terminated, pid, i)
        ensures registry[pid].exit == Some(terminated[i].1)
      {
        ReapedAllStores(before, terminated, pid, i);
        assert View().slots[registry[pid]] == registry[pid].exit;
      }
      forall slot | slot in made && !IsReaped(registry, terminated, slot) ensures slot.exit == old(slot.exit) {
        ReapedAllKeeps(before, terminated, slot);
        assert View().slots[slot] == slot.exit && before.slots[slot] == old(slot.exit);
      }
    }
  }

  // ----- all interleavings of the threads -----

  /** What the reaper thread holds between wait4, which frees the pid, the lookup of its slot, and the
      store into that slot. */
  datatype Hand = Empty | Collected(pid: int, exit: ChildExit) | Found(slot: nat, exit: ChildExit)

  /** Handles are numbered; a handle's number is its slot. `live` maps live handles to their pids. */
  datatype State = State(table: Table<nat>, live: map<nat, int>, hand: Hand)

  datatype Event =
    | Register(h: nat, pid: int)
    | Collect(pid: int, exit: ChildExit)  // wait4
    | Lookup
    | Store
    | Take(h: nat)
    | Drop(h: nat)

  predicate Enabled(s: State, e: Event) {
    match e
    case Register(h, _) => h !in s.table.slots
    case Collect(_, _) => s.hand.Empty?
    case Lookup => s.hand.Collected?
    case Store => s.hand.Found?
    case Take(h) => h in s.live && h in s.table.slots
    case Drop(h) => h in s.live
  }

  function Do(s: State, e: Event): State
    requires Enabled(s, e)
  {
    match e
    case Register(h, pid) => s.(table := Registered(s.table, pid, h), live := s.live[h := pid])
    case Collect(pid, exit) => s.(hand := Collected(pid, exit))
    case Lookup =>
      s.(hand := if s.hand.pid in s.table.registry then Found(s.table.registry[s.hand.pid], s.hand.exit) else Empty)
    case Store => s.(table := Stored(s.table, s.hand.slot, s.hand.exit), hand := Empty)
    case Take(h) => s.(table := Taken(s.table, h))
    case Drop(h) => s.(table := Dropped(s.table, s.live[h]), live := s.live - {h})
  }

  /** What try_take returns. */
  function TakeResult(s: State, h: nat): Option<ChildExit>
    requires Enabled(s, Take(h))
  {
    s.table.slots[h]
  }

  const START := State(Table(map[], map[]), map[], Empty)

  ghost predicate Run(ss: seq<State>, es: seq<Event>) {
    && |ss| == |es| + 1 && ss[0] == START
    && forall i | 0 <= i < |es| :: Enabled(ss[i], es[i]) && ss[i + 1] == Do(ss[i], es[i])
  }

  /** What wait4 returned in the events, in order. */
  function CollectedIn(es: seq<Event>): seq<(int, ChildExit)> {
    if es == [] then []
    else
      var e := es[|es| - 1];
      CollectedIn(es[..|es| - 1]) + if e.Collect? then [(e.pid, e.exit)] else []
  }

  lemma CollectedMore(es: seq<Event>, e: Event)
    ensures CollectedIn(es + [e]) == CollectedIn(es) + if e.Collect? then [(e.pid, e.exit)] else []
  {
    assert (es + [e])[..|es|] == es;
  }

  /** One event more. */
  lemma Play(ss: seq<State>, es: seq<Event>, e: Event) returns (ss': seq<State>, es': seq<Event>)
    requires Run(ss, es) && Enabled(ss[|es|], e)
    ensures Run(ss', es') && es' == es + [e] && |ss'| == |es'| + 1 && ss'[|es'|] == Do(ss[|es|], e)
  {
    ss', es' := ss + [Do(ss[|es|], e)], es + [e];
  }

  lemma RouteIsRun(ss: seq<State>, es: seq<Event>, pid: int, exit: ChildExit)
    returns (ss': seq<State>, es': seq<Event>)
    requires Run(ss, es) && ss[|es|].hand == Collected(pid, exit)
    ensures Run(ss', es') && CollectedIn(es') == CollectedIn(es)
    ensures ss'[|es'|] == ss[|es|].(table := Reaped(ss[|es|].table, pid, exit), hand := Empty)
  {
    ss', es' := Play(ss, es, Lookup);
    CollectedMore(es, Lookup);
    if ss'[|es'|].hand.Found? {
      CollectedMore(es', Store);
      ss', es' := Play(ss', es', Store);
    }
  }

  /** The reaper's method is the machine's reaper: its batch, undisturbed, is a run that collects the same
      exits in the same order and leaves the same registry and slots. */
  lemma {:induction false} BatchIsRun(ss: seq<State>, es: seq<Event>, terminated: seq<(int, ChildExit)>)
    returns (ss': seq<State>, es': seq<Event>)
    requires Run(ss, es) && ss[|es|].hand.Empty?
    ensures Run(ss', es') && CollectedIn(es') == CollectedIn(es) + terminated
    ensures ss'[|es'|] == ss[|es|].(table := ReapedAll(ss[|es|].table, terminated))
    decreases |terminated|
  {
    ss', es' := ss, es;
    if terminated != [] {
      var n := |terminated| - 1;
      var (pid, exit) := terminated[n];
      ss', es' := BatchIsRun(ss, es, terminated[..n]);
      assert terminated == terminated[..n] + [(pid, exit)];
      CollectedMore(es', Collect(pid, exit));
      ss', es' := Play(ss', es', Collect(pid, exit));
      ss', es' := RouteIsRun(ss', es', pid, exit);
    }
  }

  /** The pid has no handle, and no exit collected under it is on its way. */
  predicate Clean(s: State, pid: int) {
    pid !in s.live.Values && !(s.hand.Collected? && s.hand.pid == pid)
  }

  /** No pid is registered while an older handle for it is alive, or while an exit that was collected
      under it still has to be looked up. */
  ghost predicate CleanPids(ss: seq<State>, es: seq<Event>)
    requires Run(ss, es)
  {
    forall i | 0 <= i < |es| && es[i].Register? :: Clean(ss[i], es[i].pid)
  }

  predicate Routes(s: State) {
    && (forall h | h in s.live :: s.live[h] in s.table.registry && s.table.registry[s.live[h]] == h)
    && (forall h | h in s.live :: h in s.table.slots)
    && (s.hand.Found? ==> s.hand.slot in s.table.slots)
    && (forall pid | pid in s.table.registry :: s.table.registry[pid] in s.live && s.live[s.table.registry[pid]] == pid)
  }

  lemma RoutesStep(s: State, e: Event)
    requires Routes(s) && Enabled(s, e) && (e.Register? ==> e.pid !in s.live.Values)
    ensures Routes(Do(s, e))
  {
    assert forall h | h in s.live :: s.live[h] in s.live.Values;
  }

  lemma {:induction false} RunRoutes(ss: seq<State>, es: seq<Event>, k: nat)
    requires Run(ss, es) && CleanPids(ss, es) && k < |ss|
    ensures Routes(ss[k])
  {
    if k > 0 {
      RunRoutes(ss, es, k - 1);
      RoutesStep(ss[k - 1], es[k - 1]);
    }
  }

  /** Handle h, registered at r, is alive up to k. */
  ghost predicate Alive(ss: seq<State>, es: seq<Event>, r: nat, k: nat, h: nat, pid: int) {
    && r < k <= |es| && es[r] == Register(h, pid)
    && forall j | r < j < k :: es[j] != Drop(h)
  }

  lemma {:induction false} AliveIsLive(ss: seq<State>, es: seq<Event>, r: nat, k: nat, h: nat, pid: int)
    requires Run(ss, es) && Alive(ss, es, r, k, h, pid)
    ensures h in ss[k].live && ss[k].live[h] == pid && h in ss[k].table.slots
  {
    assert ss[k] == Do(ss[k - 1], es[k - 1]);
    if r < k - 1 {
      AliveIsLive(ss, es, r, k - 1, h, pid);
    }
  }

  // ----- exactly-once delivery -----

  /** An exit collected under the pid after r, by event c, is on its way at k. */
  predicate Coming(es: seq<Event>, r: nat, k: nat, pid: int, c: int)
    requires k <= |es|
  {
    r < c < k && es[c].Collect? && es[c].pid == pid && forall j | c < j < k :: !es[j].Collect? && !es[j].Store?
  }

  /** Event i stores an exit that was collected under the pid after r. */
  ghost predicate Stores(es: seq<Event>, r: nat, i: nat, pid: int)
    requires i < |es|
  {
    es[i].Store? && exists c :: Coming(es, r, i, pid, c)
  }

  /** The exit collected by event c was stored by event i, not taken since, and no newer one stored. */
  ghost predicate Waiting(es: seq<Event>, r: nat, k: nat, h: nat, pid: int, c: int, i: int)
    requires k <= |es|
  {
    && r < i < k && es[i].Store? && Coming(es, r, i, pid, c)
    && forall j | i < j < k :: es[j] != Take(h) && !Stores(es, r, j, pid)
  }

  /** The same by recursion over the events: what is on its way to the handle, and what waits in its slot. */
  datatype Course = Course(coming: Option<ChildExit>, waiting: Option<ChildExit>)

  function CourseOf(es: seq<Event>, r: nat, k: nat, h: nat, pid: int): Course
    requires r < k <= |es|
    decreases k
  {
    if k == r + 1 then Course(None, None)
    else
      var c := CourseOf(es, r, k - 1, h, pid);
      match es[k - 1]
      case Collect(p, exit) => c.(coming := if p == pid then Some(exit) else None)
      case Store => Course(None, if c.coming.Some? then c.coming else c.waiting)
      case Take(g) => if g == h then c.(waiting := None) else c
      case _ => c
  }

  lemma {:induction false} CourseComes(es: seq<Event>, r: nat, k: nat, h: nat, pid: int, exit: ChildExit)
    requires r < k <= |es|
    ensures CourseOf(es, r, k, h, pid).coming == Some(exit)
       <==> exists c :: Coming(es, r, k, pid, c) && es[c].exit == exit
  {
    if k > r + 1 {
      CourseComes(es, r, k - 1, h, pid, exit);
      ComingStep(es, r, k - 1, k, pid);
      assert es[k - 1].Collect? && es[k - 1].pid == pid ==> Coming(es, r, k, pid, k - 1);
    }
  }

  lemma ComingStep(es: seq<Event>, r: nat, j: nat, k: nat, pid: int)
    requires r < j && k == j + 1 <= |es|
    ensures es[j].Collect? ==> forall c :: Coming(es, r, k, pid, c) <==> c == j && es[j].pid == pid
    ensures es[j].Store? ==> forall c :: !Coming(es, r, k, pid, c)
    ensures !es[j].Collect? && !es[j].Store? ==>
              forall c :: Coming(es, r, k, pid, c) <==> Coming(es, r, j, pid, c)
  {
  }

  lemma {:induction false} CourseWaits(es: seq<Event>, r: nat, k: nat, h: nat, pid: int, exit: ChildExit)
    requires r < k <= |es|
    ensures CourseOf(es, r, k, h, pid).waiting == Some(exit)
       <==> exists c, i :: Waiting(es, r, k, h, pid, c, i) && es[c].exit == exit
  {
    if k > r + 1 {
      var j := k - 1;
      CourseWaits(es, r, j, h, pid, exit);
      CourseComes(es, r, j, h, pid, exit);
      CourseStores(es, r, j, h, pid);
      WaitingStep(es, r, j, k, h, pid);
      assert Stores(es, r, j, pid) ==> forall c :: Coming(es, r, j, pid, c) ==> Waiting(es, r, k, h, pid, c, j);
    }
  }

  lemma CourseStores(es: seq<Event>, r: nat, k: nat, h: nat, pid: int)
    requires r < k < |es|
    ensures Stores(es, r, k, pid) <==> es[k].Store? && CourseOf(es, r, k, h, pid).coming.Some?
  {
    var coming := CourseOf(es, r, k, h, pid).coming;
    if coming.Some? {
      CourseComes(es, r, k, h, pid, coming.value);
    }
    if c :| Coming(es, r, k, pid, c) {
      CourseComes(es, r, k, h, pid, es[c].exit);
    }
  }

  lemma WaitingStep(es: seq<Event>, r: nat, j: nat, k: nat, h: nat, pid: int)
    requires r < j && k == j + 1 <= |es|
    ensures Stores(es, r, j, pid) ==>
              forall c, i :: Waiting(es, r, k, h, pid, c, i) <==> i == j && Coming(es, r, j, pid, c)
    ensures es[j] == Take(h) ==> forall c, i :: !Waiting(es, r, k, h, pid, c, i)
    ensures !Stores(es, r, j, pid) && es[j] != Take(h) ==>
              forall c, i :: Waiting(es, r, k, h, pid, c, i) <==> Waiting(es, r, j, h, pid, c, i)
  {
  }

  /** The reaper's hand and the handle's slot hold exactly what the events say. */
  predicate Follows(s: State, h: nat, pid: int, c: Course) {
    && h in s.table.slots && s.table.slots[h] == c.waiting
    && match s.hand
       case Empty => c.coming == None
       case Collected(p, exit) => c.coming == if p == pid then Some(exit) else None
       case Found(slot, exit) => c.coming == if slot == h then Some(exit) else None
  }

  lemma FollowsStep(s: State, h: nat, pid: int, es: seq<Event>, r: nat, k: nat)
    requires r + 1 < k <= |es| && es[k - 1] != Drop(h) && Enabled(s, es[k - 1])
    requires Routes(s) && h in s.live && s.live[h] == pid
    requires Follows(s, h, pid, CourseOf(es, r, k - 1, h, pid))
    ensures Follows(Do(s, es[k - 1]), h, pid, CourseOf(es, r, k, h, pid))
  {
  }

  lemma {:induction false} RunFollows(ss: seq<State>, es: seq<Event>, r: nat, k: nat, h: nat, pid: int)
    requires Run(ss, es) && CleanPids(ss, es) && Alive(ss, es, r, k, h, pid)
    ensures Follows(ss[k], h, pid, CourseOf(es, r, k, h, pid))
  {
    assert ss[k] == Do(ss[k - 1], es[k - 1]) && Enabled(ss[k - 1], es[k - 1]);
    RunRoutes(ss, es, k - 1);
    if r < k - 1 {
      RunFollows(ss, es, r, k - 1, h, pid);
      AliveIsLive(ss, es, r, k - 1, h, pid);
      FollowsStep(ss[k - 1], h, pid, es, r, k);
    }
  }

  /** Exactly-once delivery, over all interleavings of wait4, lookup, store, register, take and drop: if
      pids are registered clean, the slot of a live handle holds exactly the newest exit that was
      collected under its pid since the handle was registered, and stored and not taken yet. So try_take
      returns a child's exit once, and nothing before it is reaped or after it was taken. */
  lemma SlotHoldsOwnExit(ss: seq<State>, es: seq<Event>, r: nat, k: nat, h: nat, pid: int, exit: ChildExit)
    requires Run(ss, es) && CleanPids(ss, es) && Alive(ss, es, r, k, h, pid)
    ensures Enabled(ss[k], Take(h))
    ensures TakeResult(ss[k], h) == Some(exit)
       <==> exists c, i :: Waiting(es, r, k, h, pid, c, i) && es[c].exit == exit
  {
    AliveIsLive(ss, es, r, k, h, pid);
    RunFollows(ss, es, r, k, h, pid);
    CourseWaits(es, r, k, h, pid, exit);
  }

  lemma {:induction false} OrphanStays(ss: seq<State>, es: seq<Event>, c: nat, k: nat)
    requires Run(ss, es) && CleanPids(ss, es) && c < k < |ss|
    requires es[c].Collect? && es[c].pid !in ss[c].live.Values && forall j | c < j < k :: !es[j].Lookup?
    ensures ss[k].hand == Collected(es[c].pid, es[c].exit) && es[c].pid !in ss[k].live.Values
  {
    assert ss[k] == Do(ss[k - 1], es[k - 1]) && Enabled(ss[k - 1], es[k - 1]);
    if c < k - 1 {
      OrphanStays(ss, es, c, k - 1);
      assert forall h | h in ss[k].live :: ss[k].live[h] == es[c].pid ==> h in ss[k - 1].live;
    }
  }

  /** The exit of a child without a handle changes no slot and no registration: its lookup, at k, finds
      none, whatever happens between. */
  lemma OrphansChangeNothing(ss: seq<State>, es: seq<Event>, c: nat, k: nat)
    requires Run(ss, es) && CleanPids(ss, es) && c < k < |es| && es[k].Lookup?
    requires es[c].Collect? && es[c].pid !in ss[c].live.Values && forall j | c < j < k :: !es[j].Lookup?
    ensures ss[k + 1] == ss[k].(hand := Empty)
  {
    OrphanStays(ss, es, c, k);
    RunRoutes(ss, es, k);
    assert ss[k + 1] == Do(ss[k], es[k]);
    assert forall h | h in ss[k].live :: ss[k].live[h] in ss[k].live.Values;
  }

  // ----- pids that are not clean -----

  /** wait4 frees the pid before its slot is looked up: a child that gets the pid and is registered in
      between receives the exit of the orphan before it, although no older handle for the pid lives. */
  lemma OrphanReachesNewChild(pid: int, orphan: ChildExit)
    ensures exists ss: seq<State>, es: seq<Event> ::
              Run(ss, es) && es == [Collect(pid, orphan), Register(0, pid), Lookup, Store]
              && (forall i | 0 <= i < 4 && es[i].Register? :: es[i].pid !in ss[i].live.Values)
              && Enabled(ss[4], Take(0)) && TakeResult(ss[4], 0) == Some(orphan)
  {
    var es := [Collect(pid, orphan), Register(0, pid), Lookup, Store];
    var s1 := Do(START, es[0]);
    var s2 := Do(s1, es[1]);
    var s3 := Do(s2, es[2]);
    var ss := [START, s1, s2, s3, Do(s3, es[3])];
    assert Run(ss, es);
  }

  /** With reissued pids, the newest registration of a pid is in force exactly until any handle with
      that pid is dropped, also an older one. */
  lemma {:induction false} RegistrationLastsIff(ss: seq<State>, es: seq<Event>, r: nat, k: nat, h: nat, pid: int)
    requires Run(ss, es) && r < k <= |es| && es[r] == Register(h, pid)
    requires forall j | r < j < k :: !(es[j].Register? && es[j].pid == pid)
    ensures (pid in ss[k].table.registry && ss[k].table.registry[pid] == h)
       <==> forall j | r < j < k :: !(es[j].Drop? && es[j].h in ss[j].live && ss[j].live[es[j].h] == pid)
    ensures pid in ss[k].table.registry ==> ss[k].table.registry[pid] == h
  {
    assert ss[k] == Do(ss[k - 1], es[k - 1]);
    if r < k - 1 {
      RegistrationLastsIff(ss, es, r, k - 1, h, pid);
    }
  }

  /** The first child was reaped and its exit stored. */
  lemma ReapedRun(pid: int, first: ChildExit) returns (ss: seq<State>, es: seq<Event>)
    ensures Run(ss, es) && es == [Register(0, pid), Collect(pid, first), Lookup, Store]
    ensures ss[4] == State(Table(map[pid := 0], map[0 := Some(first)]), map[0 := pid], Empty)
  {
    ss, es := Play([START], [], Register(0, pid));
    ss, es := Play(ss, es, Collect(pid, first));
    ss, es := Play(ss, es, Lookup);
    ss, es := Play(ss, es, Store);
  }

  /** Its handle still lives when a second child gets the pid, and dropping it unregisters the second. */
  lemma ReissuingRun(pid: int, first: ChildExit, second: ChildExit) returns (ss: seq<State>, es: seq<Event>)
    ensures Run(ss, es) && |es| == 8 && es[..4] == [Register(0, pid), Collect(pid, first), Lookup, Store]
    ensures es[4..] == [Register(1, pid), Drop(0), Collect(pid, second), Lookup]
    ensures ss[8].hand == Empty && Enabled(ss[8], Take(1)) && TakeResult(ss[8], 1) == None
  {
    ss, es := ReapedRun(pid, first);
    ss, es := Play(ss, es, Register(1, pid));
    ss, es := Play(ss, es, Drop(0));
    ss, es := Play(ss, es, Collect(pid, second));
    ss, es := Play(ss, es, Lookup);
  }

  /** A reissued pid can lose an exit: that of the second child is collected and discarded. */
  lemma ReissueLosesExit(pid: int, first: ChildExit, second: ChildExit)
    ensures exists ss: seq<State>, es: seq<Event> ::
              Run(ss, es) && |es| == 8 && es[..4] == [Register(0, pid), Collect(pid, first), Lookup, Store]
              && es[4..] == [Register(1, pid), Drop(0), Collect(pid, second), Lookup]
              && ss[8].hand == Empty && Enabled(ss[8], Take(1)) && TakeResult(ss[8], 1) == None
  {
    var ss, es := ReissuingRun(pid, first, second);
  }
}
