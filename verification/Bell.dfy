/**
 One gateway's "buzzer" (src/api/result_bus.rs) on top of the cluster protocol: the listener that
 receives the bells, the registry of broadcast channels, and the requests that wait in wait_for.
 A bell may be dropped, the listener may lose its connection, and GETs may fail.
 */
module Bell {
  import opened Prelude
  import opened Redis
  import opened Cluster
  import opened Channels

  /** Where a request is in wait_for: before its first GET, in the select, woken and about to GET,
      about to return, or returned with its guard dropped and its receiver still to be dropped. */
  datatype Phase = Fresh | Parked | Woken | Served | Unguarded

  /** A waiter holds a receiver of `channel` as long as it is in the table. `next` is the receiver's
      position among the channel's sends. `blamed` is history: since its last answered GET a bell for
      the id was dropped, a client that owed one vanished, or its own GET failed. */
  datatype Waiter = Waiter(id: JobId, channel: nat, next: nat, phase: Phase, blamed: bool)

  datatype Gateway = Gateway(
    cluster: State,
    bells: seq<JobId>,          // received by the listener, not routed yet
    routing: Option<nat>,       // the sender the listener cloned under the lock and has not used yet
    hub: Hub<nat>,
    waiters: map<nat, Waiter>
  )

  datatype Step =
    | Cluster(event: Event, lost: bool)           // `lost`: a PUBLISH does not reach this listener
    | Take                                        // the listener looks a bell's channel up
    | Send                                        // ... and rings it
    | Disconnect                                  // the pub/sub stream ends
    | Register(w: nat, id: JobId, channel: nat)   // `channel` is used if the id has none
    | Get(w: nat, heard: bool)
    | Recv(w: nat)                                // a bell, or the notice that some were skipped
    | Tick(w: nat)                                // the safety poll
    | DropGuard(w: nat)                           // wait_for returns or is cancelled: guard first ...
    | DropReceiver(w: nat)                        // ... then receiver

  function Receivers(g: Gateway, channel: nat): set<nat> {
    set w | w in g.waiters && g.waiters[w].channel == channel
  }

  /** The guards about the hub restrict nothing: HubIsReady. */
  predicate Can(g: Gateway, step: Step) {
    match step
    case Cluster(e, _) => Enabled(g.cluster, e)
    case Take => g.bells != [] && g.routing.None?
    case Send => g.routing.Some? && g.routing.value in g.hub.channels
    case Disconnect => true
    case Register(w, id, channel) => w !in g.waiters && channel !in g.hub.channels && Resolves(g.hub, id)
    case Get(w, _) => w in g.waiters && (g.waiters[w].phase.Fresh? || g.waiters[w].phase.Woken?)
    case Recv(w) => w in g.waiters && g.waiters[w].phase.Parked? && Unread(g, w)
    case Tick(w) => w in g.waiters && g.waiters[w].phase.Parked?
    case DropGuard(w) => w in g.waiters && !g.waiters[w].phase.Unguarded? && Resolves(g.hub, g.waiters[w].id)
    case DropReceiver(w) => w in g.waiters && g.waiters[w].phase.Unguarded? && Counted(g.hub, g.waiters[w].channel)
  }

  predicate Counted(hub: Hub<nat>, c: nat) {
    c in hub.channels && hub.channels[c].receivers > 0
  }

  predicate Unread(g: Gateway, w: nat)
    requires w in g.waiters
  {
    var waiter := g.waiters[w];
    waiter.channel in g.hub.channels && waiter.next < g.hub.channels[waiter.channel].sent
  }

  /** The id whose PUBLISH a pipe still has to execute. */
  function OwedBy(task: Task): Option<JobId> {
    if InPipe(task) && (task.pipe.Report? || task.pipe.Reack?)
    then Some(if task.pipe.Report? then task.pipe.result.jobId else task.pipe.id)
    else None
  }

  predicate Owes(s: State, t: nat, id: JobId) {
    t in s.tasks && OwedBy(s.tasks[t]) == Some(id)
  }

  ghost predicate Owed(s: State, id: JobId) {
    exists t :: Owes(s, t, id)
  }

  function Blame(waiters: map<nat, Waiter>, id: JobId): map<nat, Waiter> {
    map w | w in waiters :: if waiters[w].id == id then waiters[w].(blamed := true) else waiters[w]
  }

  function BlameAll(waiters: map<nat, Waiter>, ids: seq<JobId>): map<nat, Waiter> {
    map w | w in waiters :: if waiters[w].id in ids then waiters[w].(blamed := true) else waiters[w]
  }

  function Next(g: Gateway, step: Step): Gateway
    requires Can(g, step)
  {
    match step
    case Cluster(e, lost) =>
      var g' := g.(cluster := Do(g.cluster, e));
      if e.Exec? && Head(g.cluster.tasks[e.task]).Publish? then
        var id := Head(g.cluster.tasks[e.task]).id;
        if lost then g'.(waiters := Blame(g.waiters, id)) else g'.(bells := g.bells + [id])
      else if e.Vanish? && OwedBy(g.cluster.tasks[e.task]).Some? then
        g'.(waiters := Blame(g.waiters, OwedBy(g.cluster.tasks[e.task]).value))
      else g'
    case Take =>
      var id := g.bells[0];
      g.(bells := g.bells[1..], routing := if id in g.hub.registry then Some(g.hub.registry[id]) else None)
    case Send => g.(routing := None, hub := Rung(g.hub, g.routing.value))
    case Disconnect => g.(bells := [], waiters := BlameAll(g.waiters, g.bells))
    case Register(w, id, unused) =>
      var hub := Subscribed(g.hub, id, unused);
      var c := hub.registry[id];
      g.(hub := hub, waiters := g.waiters[w := Waiter(id, c, hub.channels[c].sent, Fresh, false)])
    case Get(w, heard) =>
      var waiter := g.waiters[w];
      var found := heard && waiter.id in g.cluster.broker.results;
      g.(waiters := g.waiters[w := waiter.(phase := if found then Served else Parked, blamed := !heard)])
    case Recv(w) =>
      var waiter := g.waiters[w];
      var next := AfterRecv(waiter.next, g.hub.channels[waiter.channel].sent);
      g.(waiters := g.waiters[w := waiter.(next := next, phase := Woken)])
    case Tick(w) => g.(waiters := g.waiters[w := g.waiters[w].(phase := Woken)])
    case DropGuard(w) =>
      g.(hub := GuardDropped(g.hub, g.waiters[w].id),
         waiters := g.waiters[w := g.waiters[w].(phase := Unguarded)])
    case DropReceiver(w) => g.(hub := ReceiverDropped(g.hub, g.waiters[w].channel), waiters := g.waiters - {w})
  }

  /** A gateway that just started, on a cluster in any reachable state. */
  predicate Start(g: Gateway) {
    g.bells == [] && g.routing.None? && g.hub == Hub(map[], map[]) && g.waiters == map[]
  }

  ghost predicate Steps(gs: seq<Gateway>, steps: seq<Step>) {
    && |gs| == |steps| + 1
    && forall i | 0 <= i < |steps| :: Can(gs[i], steps[i]) && gs[i + 1] == Next(gs[i], steps[i])
  }

  ghost predicate Behavior(gs: seq<Gateway>, steps: seq<Step>) {
    Steps(gs, steps) && Start(gs[0])
  }

  lemma Onward(gs: seq<Gateway>, steps: seq<Step>, step: Step) returns (gs': seq<Gateway>, steps': seq<Step>)
    requires Steps(gs, steps) && Can(gs[|steps|], step)
    ensures Steps(gs', steps')
    ensures steps' == steps + [step] && gs' == gs + [Next(gs[|steps|], step)]
  {
    gs', steps' := gs + [Next(gs[|steps|], step)], steps + [step];
  }

  // ----- the registry -----

  /** A receiver that is alive listens to the channel registered for its id. */
  predicate Attached(hub: Hub<nat>, waiter: Waiter) {
    && waiter.id in hub.registry && hub.registry[waiter.id] == waiter.channel
    && waiter.channel in hub.channels && waiter.next <= hub.channels[waiter.channel].sent
  }

  predicate Wired(g: Gateway) {
    && (forall id | id in g.hub.registry :: g.hub.registry[id] in g.hub.channels)
    && (g.routing.Some? ==> g.routing.value in g.hub.channels)
    && (forall w | w in g.waiters :: Attached(g.hub, g.waiters[w]))
    && (forall c | c in g.hub.channels :: g.hub.channels[c].receivers == |Receivers(g, c)|)
  }

  /** What a step may do to the registry and the channels: nothing is removed. */
  predicate Extends(hub: Hub<nat>, hub': Hub<nat>) {
    && (forall id | id in hub.registry :: id in hub'.registry && hub'.registry[id] == hub.registry[id])
    && (forall c | c in hub.channels :: c in hub'.channels && hub.channels[c].sent <= hub'.channels[c].sent)
  }

  lemma ReceiverIsCounted(g: Gateway, w: nat)
    requires Wired(g) && w in g.waiters
    ensures Counted(g.hub, g.waiters[w].channel)
  {
    assert w in Receivers(g, g.waiters[w].channel);
  }

  /** Nobody is ever kept from registering, leaving or ringing by the state of the hub. */
  lemma HubIsReady(g: Gateway, id: JobId)
    requires Wired(g)
    ensures Resolves(g.hub, id) && (g.routing.Some? ==> g.routing.value in g.hub.channels)
    ensures forall w | w in g.waiters :: Counted(g.hub, g.waiters[w].channel)
  {
    forall w | w in g.waiters ensures Counted(g.hub, g.waiters[w].channel) {
      ReceiverIsCounted(g, w);
    }
  }

  /** wait_for drops its guard before its receiver, so every guard still sees that receiver. */
  lemma GuardKeepsHub(g: Gateway, w: nat)
    requires Wired(g) && w in g.waiters
    ensures GuardDropped(g.hub, g.waiters[w].id) == g.hub
  {
    ReceiverIsCounted(g, w);
  }

  lemma StepExtends(g: Gateway, step: Step)
    requires Wired(g) && Can(g, step)
    ensures Extends(g.hub, Next(g, step).hub)
  {
    if step.DropGuard? {
      GuardKeepsHub(g, step.w);
    }
  }

  predicate OfWaiter(step: Step) {
    !(step.Cluster? || step.Take? || step.Send? || step.Disconnect?)
  }

  lemma WaiterStepAttaches(g: Gateway, step: Step, w: nat)
    requires Wired(g) && Can(g, step) && OfWaiter(step) && Extends(g.hub, Next(g, step).hub)
    requires w in Next(g, step).waiters
    ensures Attached(Next(g, step).hub, Next(g, step).waiters[w])
  {
    assert w in g.waiters ==> Attached(g.hub, g.waiters[w]);
  }

  lemma OtherStepKeepsWaiters(g: Gateway, step: Step)
    requires Can(g, step) && !OfWaiter(step)
    ensures Next(g, step).waiters.Keys == g.waiters.Keys
    ensures forall w | w in g.waiters ::
              Next(g, step).waiters[w] == g.waiters[w].(blamed := Next(g, step).waiters[w].blamed)
  {
  }

  lemma OtherStepAttaches(g: Gateway, step: Step, w: nat)
    requires Wired(g) && Can(g, step) && !OfWaiter(step) && Extends(g.hub, Next(g, step).hub)
    requires w in Next(g, step).waiters
    ensures Attached(Next(g, step).hub, Next(g, step).waiters[w])
  {
    OtherStepKeepsWaiters(g, step);
  }

  lemma OtherStepReceivers(g: Gateway, step: Step, c: nat)
    requires Can(g, step) && !OfWaiter(step)
    ensures Receivers(Next(g, step), c) == Receivers(g, c)
  {
    OtherStepKeepsWaiters(g, step);
  }

  /** Only registering and dropping a receiver change who listens to a channel. */
  lemma WaiterStepReceivers(g: Gateway, step: Step, c: nat)
    requires Can(g, step) && OfWaiter(step)
    ensures var before, after := Receivers(g, c), Receivers(Next(g, step), c);
            match step
            case Register(w, id, unused) =>
              var joined := Subscribed(g.hub, id, unused).registry[id];
              w !in before && after == if joined == c then before + {w} else before
            case DropReceiver(w) => after == before - {w} && (w in before <==> g.waiters[w].channel == c)
            case _ => after == before
  {
  }

  lemma NobodyOnNewChannel(g: Gateway, c: nat)
    requires Wired(g) && c !in g.hub.channels
    ensures Receivers(g, c) == {}
  {
    assert forall w | w in g.waiters :: Attached(g.hub, g.waiters[w]);
  }

  /** How a step changes a channel's count of its receivers. */
  lemma HubCounts(g: Gateway, step: Step, c: nat)
    requires Wired(g) && Can(g, step) && c in Next(g, step).hub.channels
    ensures var before := if c in g.hub.channels then g.hub.channels[c].receivers else 0;
            var after := Next(g, step).hub.channels[c].receivers;
            match step
            case Register(_, id, unused) =>
              after == before + if Subscribed(g.hub, id, unused).registry[id] == c then 1 else 0
            case DropReceiver(w) => after == before - if g.waiters[w].channel == c then 1 else 0
            case _ => after == before
  {
  }

  lemma StepCounts(g: Gateway, step: Step, c: nat)
    requires Wired(g) && Can(g, step) && c in Next(g, step).hub.channels
    ensures Next(g, step).hub.channels[c].receivers == |Receivers(Next(g, step), c)|
  {
    HubCounts(g, step, c);
    if c !in g.hub.channels {
      NobodyOnNewChannel(g, c);
    }
    if OfWaiter(step) {
      WaiterStepReceivers(g, step, c);
    } else {
      OtherStepReceivers(g, step, c);
    }
  }

  lemma WiredStep(g: Gateway, step: Step)
    requires Wired(g) && Can(g, step)
    ensures Wired(Next(g, step)) && Extends(g.hub, Next(g, step).hub)
  {
    StepExtends(g, step);
    if step.DropGuard? {
      GuardKeepsHub(g, step.w);
    }
    forall w | w in Next(g, step).waiters ensures Attached(Next(g, step).hub, Next(g, step).waiters[w]) {
      if OfWaiter(step) {
        WaiterStepAttaches(g, step, w);
      } else {
        OtherStepAttaches(g, step, w);
      }
    }
    forall c | c in Next(g, step).hub.channels
      ensures Next(g, step).hub.channels[c].receivers == |Receivers(Next(g, step), c)|
    {
      StepCounts(g, step, c);
    }
  }

  /** A guard detaches an id exactly when no receiver of its channel is left. */
  lemma ReapIffNoReceiver(g: Gateway, id: JobId)
    requires Wired(g) && id in g.hub.registry
    ensures id !in GuardDropped(g.hub, id).registry <==>
              forall w | w in g.waiters :: g.waiters[w].channel != g.hub.registry[id]
  {
    var receivers := Receivers(g, g.hub.registry[id]);
    if w :| w in receivers {
      assert g.waiters[w].channel == g.hub.registry[id];
    }
    assert forall w | w in g.waiters && g.waiters[w].channel == g.hub.registry[id] :: w in receivers;
  }

  lemma {:induction false} BehaviorIsWired(gs: seq<Gateway>, steps: seq<Step>, k: nat)
    requires Behavior(gs, steps) && k < |gs|
    ensures Wired(gs[k])
  {
    if k > 0 {
      BehaviorIsWired(gs, steps, k - 1);
      WiredStep(gs[k - 1], steps[k - 1]);
    }
  }

  lemma HubGrows(gs: seq<Gateway>, steps: seq<Step>, k: nat)
    requires Behavior(gs, steps) && k < |steps|
    ensures Extends(gs[k].hub, gs[k + 1].hub)
  {
    BehaviorIsWired(gs, steps, k);
    StepExtends(gs[k], steps[k]);
  }

  /** No behaviour ever removes an entry from the registry: wait_for drops its guard before its
      receiver, so every guard still sees that receiver. In particular no live receiver is detached,
      and its channel is never closed; but entries stay after their last waiter is gone. */
  lemma {:induction false} RegistryNeverShrinks(gs: seq<Gateway>, steps: seq<Step>, i: nat, k: nat, id: JobId)
    requires Behavior(gs, steps) && i <= k < |gs| && id in gs[i].hub.registry
    ensures id in gs[k].hub.registry && gs[k].hub.registry[id] == gs[i].hub.registry[id]
  {
    if i < k {
      RegistryNeverShrinks(gs, steps, i, k - 1, id);
      HubGrows(gs, steps, k - 1);
    }
  }

  lemma RegistersOnly(g: Gateway, step: Step, id: JobId)
    requires Wired(g) && Can(g, step)
    ensures id in Next(g, step).hub.registry <==> id in g.hub.registry || (step.Register? && step.id == id)
  {
    StepExtends(g, step);
  }

  lemma RegistersNext(gs: seq<Gateway>, steps: seq<Step>, k: nat, id: JobId)
    requires Behavior(gs, steps) && k < |steps|
    ensures id in gs[k + 1].hub.registry <==> id in gs[k].hub.registry || (steps[k].Register? && steps[k].id == id)
  {
    BehaviorIsWired(gs, steps, k);
    RegistersOnly(gs[k], steps[k], id);
  }

  /** What is never taken back is there exactly if it happened once. */
  lemma {:induction false} Accumulates(there: seq<bool>, happens: seq<bool>, k: nat)
    requires |there| == |happens| + 1 && k < |there| && !there[0]
    requires forall j | 0 <= j < |happens| :: there[j + 1] <==> there[j] || happens[j]
    ensures there[k] <==> exists j :: 0 <= j < k && happens[j]
  {
    if k > 0 {
      Accumulates(there, happens, k - 1);
      assert there[k - 1 + 1] <==> there[k - 1] || happens[k - 1];
    }
  }

  /** The registry leaks, exactly: an id is in it if and only if a request ever waited for it. */
  lemma RegisteredIff(gs: seq<Gateway>, steps: seq<Step>, k: nat, id: JobId)
    requires Behavior(gs, steps) && k < |gs|
    ensures id in gs[k].hub.registry <==> exists j :: 0 <= j < k && steps[j].Register? && steps[j].id == id
  {
    var there := seq(|gs|, j requires 0 <= j < |gs| => id in gs[j].hub.registry);
    var happens := seq(|steps|, j requires 0 <= j < |steps| => steps[j].Register? && steps[j].id == id);
    forall j | 0 <= j < |steps| ensures there[j + 1] <==> there[j] || happens[j] {
      RegistersNext(gs, steps, j, id);
    }
    Accumulates(there, happens, k);
    if j :| 0 <= j < k && happens[j] {
      assert steps[j].Register? && steps[j].id == id;
    }
    if j :| 0 <= j < k && steps[j].Register? && steps[j].id == id {
      assert happens[j];
    }
  }

  lemma LeakingRun(g: Gateway, id: JobId) returns (gs: seq<Gateway>, steps: seq<Step>)
    requires Start(g)
    ensures Behavior(gs, steps) && gs[0] == g && |steps| == 3 && steps[0] == Register(0, id, 0)
    ensures gs[3].waiters == map[]
  {
    gs, steps := [g], [];
    gs, steps := Onward(gs, steps, Register(0, id, 0));
    assert gs[1].waiters == map[0 := Waiter(id, 0, 0, Fresh, false)];
    gs, steps := Onward(gs, steps, DropGuard(0));
    assert gs[2].waiters == map[0 := Waiter(id, 0, 0, Unguarded, false)];
    gs, steps := Onward(gs, steps, DropReceiver(0));
  }

  /** The leak: one request that waits and leaves keeps its entry although nobody waits any more. */
  lemma RegistryLeaks(g: Gateway, id: JobId)
    requires Start(g)
    ensures exists gs: seq<Gateway>, steps: seq<Step> ::
              Behavior(gs, steps) && gs[0] == g && |steps| == 3 && gs[3].waiters == map[] && id in gs[3].hub.registry
  {
    var gs, steps := LeakingRun(g, id);
    RegisteredIff(gs, steps, 3, id);
  }

  // ----- where a waiter is -----

  /** The step is one of the waiter itself. */
  predicate IsOwn(step: Step, w: nat) {
    OfWaiter(step) && step.w == w
  }

  lemma OthersKeepWaiter(g: Gateway, step: Step, w: nat)
    requires Can(g, step) && !IsOwn(step, w)
    ensures w in Next(g, step).waiters <==> w in g.waiters
    ensures w in g.waiters ==>
              Next(g, step).waiters[w] == g.waiters[w].(blamed := Next(g, step).waiters[w].blamed)
  {
    if !OfWaiter(step) {
      OtherStepKeepsWaiters(g, step);
    }
  }

  /** Event j is the last step of the waiter before k. */
  predicate IsLast(steps: seq<Step>, k: nat, w: nat, j: nat) {
    j < k <= |steps| && IsOwn(steps[j], w) && forall i | j < i < k :: !IsOwn(steps[i], w)
  }

  /** A GET that is answered while the result is stored. */
  predicate Finds(g: Gateway, step: Step, id: JobId) {
    step.Get? && step.heard && id in g.cluster.broker.results
  }

  /** What a waiter's own step makes of it. */
  predicate Tells(g: Gateway, step: Step, waiter: Waiter) {
    match step
    case Register(_, id, _) => waiter.phase.Fresh? && waiter.id == id
    case Get(_, _) => waiter.phase == if Finds(g, step, waiter.id) then Served else Parked
    case Recv(_) => waiter.phase.Woken?
    case Tick(_) => waiter.phase.Woken?
    case DropGuard(_) => waiter.phase.Unguarded?
    case _ => false
  }

  lemma OwnStepTells(g: Gateway, step: Step, w: nat)
    requires Can(g, step) && IsOwn(step, w)
    ensures w in Next(g, step).waiters <==> !step.DropReceiver?
    ensures w in Next(g, step).waiters ==> Tells(g, step, Next(g, step).waiters[w])
  {
  }

  lemma OthersTell(g: Gateway, step: Step, w: nat, h: Gateway, last: Step)
    requires Can(g, step) && !IsOwn(step, w)
    requires w in g.waiters ==> Tells(h, last, g.waiters[w])
    ensures w in Next(g, step).waiters <==> w in g.waiters
    ensures w in Next(g, step).waiters ==> Tells(h, last, Next(g, step).waiters[w])
  {
    OthersKeepWaiter(g, step, w);
  }

  lemma {:induction false} LastStepTells(gs: seq<Gateway>, steps: seq<Step>, k: nat, w: nat, j: nat)
    requires Behavior(gs, steps) && IsLast(steps, k, w, j)
    ensures w in gs[k].waiters <==> !steps[j].DropReceiver?
    ensures w in gs[k].waiters ==> Tells(gs[j], steps[j], gs[k].waiters[w])
  {
    var i := k - 1;
    assert Can(gs[i], steps[i]) && gs[k] == Next(gs[i], steps[i]);
    if j < i {
      LastStepTells(gs, steps, i, w, j);
      OthersTell(gs[i], steps[i], w, gs[j], steps[j]);
    } else {
      OwnStepTells(gs[j], steps[j], w);
    }
  }

  lemma {:induction false} FindLast(gs: seq<Gateway>, steps: seq<Step>, k: nat, w: nat) returns (j: nat)
    requires Behavior(gs, steps) && k < |gs| && w in gs[k].waiters
    ensures IsLast(steps, k, w, j)
  {
    assert Can(gs[k - 1], steps[k - 1]) && gs[k] == Next(gs[k - 1], steps[k - 1]);
    if IsOwn(steps[k - 1], w) {
      j := k - 1;
    } else {
      OthersKeepWaiter(gs[k - 1], steps[k - 1], w);
      j := FindLast(gs, steps, k - 1, w);
    }
  }

  /** When a waiter waits, in every behaviour: its wait is over exactly if its last step was an answered
      GET made while the result was stored; it is in the select exactly if its last step was any other
      GET; and it is about to GET exactly if a bell or the safety poll woke it last. */
  lemma WaitsIff(gs: seq<Gateway>, steps: seq<Step>, k: nat, w: nat)
    requires Behavior(gs, steps) && k < |gs| && w in gs[k].waiters
    ensures var Waiter(id, _, _, phase, _) := gs[k].waiters[w];
            && (phase.Served? <==> exists j: nat :: IsLast(steps, k, w, j) && Finds(gs[j], steps[j], id))
            && (phase.Parked? <==>
                  exists j: nat :: IsLast(steps, k, w, j) && steps[j].Get? && !Finds(gs[j], steps[j], id))
            && (phase.Woken? <==> exists j: nat :: IsLast(steps, k, w, j) && (steps[j].Recv? || steps[j].Tick?))
  {
    var j := FindLast(gs, steps, k, w);
    LastStepTells(gs, steps, k, w, j);
    assert forall i: nat :: IsLast(steps, k, w, i) ==> i == j;
  }

  /** The bell of `id` gets lost: a PUBLISH does not reach the listener, a client that owes one vanishes,
      or the listener's connection ends before the bell was routed. */
  predicate LosesBell(g: Gateway, step: Step, id: JobId) {
    match step
    case Cluster(e, lost) =>
      || (lost && e.Exec? && IsInPipe(g.cluster, e.task) && Head(g.cluster.tasks[e.task]) == Publish(id))
      || (e.Vanish? && Owes(g.cluster, e.task, id))
    case Disconnect => id in g.bells
    case _ => false
  }

  /** The waiter looks for its result, or begins to wait. */
  predicate Asks(step: Step, w: nat) {
    IsOwn(step, w) && (step.Register? || step.Get?)
  }

  /** Event i is a fault for the waiter: its own GET that failed, or a bell that got lost since it last
      looked. */
  predicate Faults(gs: seq<Gateway>, steps: seq<Step>, k: nat, w: nat, id: JobId, i: nat) {
    && i < k <= |steps| <= |gs| && (steps[i] == Get(w, false) || LosesBell(gs[i], steps[i], id))
    && forall j | i < j < k :: !Asks(steps[j], w)
  }

  lemma BlameStep(g: Gateway, step: Step, w: nat)
    requires Can(g, step) && w in Next(g, step).waiters
    ensures var waiter := Next(g, step).waiters[w];
            && (Asks(step, w) ==> (waiter.blamed <==> step == Get(w, false)))
            && (!Asks(step, w) ==>
                  w in g.waiters && g.waiters[w].id == waiter.id
                  && (waiter.blamed <==> g.waiters[w].blamed || LosesBell(g, step, waiter.id)))
  {
  }

  lemma FaultsStep(gs: seq<Gateway>, steps: seq<Step>, j: nat, k: nat, w: nat, id: JobId)
    requires j + 1 == k <= |steps| <= |gs|
    ensures forall i: nat :: Faults(gs, steps, k, w, id, i) <==>
              (i == j && (steps[j] == Get(w, false) || LosesBell(gs[j], steps[j], id)))
              || (Faults(gs, steps, j, w, id, i) && !Asks(steps[j], w))
  {
  }

  /** A fault is on record exactly if there was one, in every behaviour. */
  lemma {:induction false} BlamedIff(gs: seq<Gateway>, steps: seq<Step>, k: nat, w: nat)
    requires Behavior(gs, steps) && k < |gs| && w in gs[k].waiters
    ensures gs[k].waiters[w].blamed <==> exists i: nat :: Faults(gs, steps, k, w, gs[k].waiters[w].id, i)
  {
    var j, id := k - 1, gs[k].waiters[w].id;
    assert Can(gs[j], steps[j]) && gs[k] == Next(gs[j], steps[j]);
    BlameStep(gs[j], steps[j], w);
    FaultsStep(gs, steps, j, k, w, id);
    if Asks(steps[j], w) {
      assert steps[j] == Get(w, false) ==> Faults(gs, steps, k, w, id, j);
    } else {
      BlamedIff(gs, steps, j, w);
      assert LosesBell(gs[j], steps[j], id) ==> Faults(gs, steps, k, w, id, j);
    }
  }

  /** How many sends on its channel the waiter has not received. */
  function Backlog(g: Gateway, w: nat): int
    requires w in g.waiters && Attached(g.hub, g.waiters[w])
  {
    g.hub.channels[g.waiters[w].channel].sent - g.waiters[w].next
  }

  lemma OwnBacklog(g: Gateway, step: Step, w: nat)
    requires Wired(g) && Can(g, step) && IsOwn(step, w) && w in Next(g, step).waiters
    requires Attached(Next(g, step).hub, Next(g, step).waiters[w])
    ensures step.Register? ==> Backlog(Next(g, step), w) == 0
    ensures !step.Register? ==>
              w in g.waiters
              && Backlog(Next(g, step), w) == if step.Recv? && Backlog(g, w) > 1 then 1
                                              else if step.Recv? then 0 else Backlog(g, w)
  {
    if !step.Register? {
      ReceiverIsCounted(g, w);
    }
  }

  lemma OthersBacklog(g: Gateway, step: Step, w: nat)
    requires Wired(g) && Can(g, step) && !IsOwn(step, w) && w in g.waiters && w in Next(g, step).waiters
    requires Attached(Next(g, step).hub, Next(g, step).waiters[w])
    ensures Backlog(Next(g, step), w)
         == Backlog(g, w) + if step.Send? && g.routing == Some(g.waiters[w].channel) then 1 else 0
  {
    OthersKeepWaiter(g, step, w);
    ReceiverIsCounted(g, w);
    if step.DropGuard? {
      GuardKeepsHub(g, step.w);
    }
  }

  /** In every behaviour a waiter begins with nothing unread, each send on its channel adds one, and
      receiving leaves the newest if several were unread, and otherwise none. */
  lemma BacklogIs(gs: seq<Gateway>, steps: seq<Step>, k: nat, w: nat)
    requires Behavior(gs, steps) && k < |steps| && w in gs[k + 1].waiters
    ensures Attached(gs[k + 1].hub, gs[k + 1].waiters[w]) && Wired(gs[k])
    ensures steps[k].Register? && steps[k].w == w ==> Backlog(gs[k + 1], w) == 0
    ensures !(steps[k].Register? && steps[k].w == w) ==>
              w in gs[k].waiters &&
              var sent := steps[k].Send? && gs[k].routing == Some(gs[k].waiters[w].channel);
              Backlog(gs[k + 1], w) == if steps[k] == Recv(w) then Min(Backlog(gs[k], w) - 1, 1)
                                       else Backlog(gs[k], w) + if sent then 1 else 0
  {
    var g, step := gs[k], steps[k];
    assert Can(g, step) && gs[k + 1] == Next(g, step);
    BehaviorIsWired(gs, steps, k);
    WiredStep(g, step);
    if IsOwn(step, w) {
      OwnBacklog(g, step, w);
      assert step.Recv? ==> Unread(g, w);
    } else {
      OthersKeepWaiter(g, step, w);
      OthersBacklog(g, step, w);
    }
  }

  // ----- no lost wakeup -----

  /** A parked waiter whose result is stored will be woken by a bell that is unread, in the listener's
      hands, or still owed, unless a fault since its last answered GET is on record. */
  ghost predicate WillWake(g: Gateway, w: nat)
    requires w in g.waiters
  {
    var waiter := g.waiters[w];
    waiter.phase.Parked? && waiter.id in g.cluster.broker.results ==>
      || Unread(g, w)
      || g.routing == Some(waiter.channel)
      || waiter.id in g.bells
      || Owed(g.cluster, waiter.id)
      || waiter.blamed
  }

  /** A result appears only through a SET whose pipe still owes the PUBLISH. */
  lemma ResultsAreAnnounced(s: State, e: Event, id: JobId)
    requires Enabled(s, e) && id in Do(s, e).broker.results
    ensures id in s.broker.results || Owed(Do(s, e), id)
  {
    if id !in s.broker.results {
      assert e.Exec? && Head(s.tasks[e.task]).SetResult?;
      assert Owes(Do(s, e), e.task, id);
    }
  }

  predicate Rings(s: State, e: Event, id: JobId) {
    e.Exec? && IsInPipe(s, e.task) && Head(s.tasks[e.task]) == Publish(id)
  }

  predicate Defaults(s: State, e: Event, id: JobId) {
    e.Vanish? && Owes(s, e.task, id)
  }

  /** What is owed stays owed until the PUBLISH or until the client that owes it vanishes. */
  lemma DebtStays(s: State, e: Event, id: JobId)
    requires Enabled(s, e) && Owed(s, id)
    ensures Owed(Do(s, e), id) || Rings(s, e, id) || Defaults(s, e, id)
  {
    var t :| Owes(s, t, id);
    if !Rings(s, e, id) && !Defaults(s, e, id) {
      assert Owes(Do(s, e), t, id);
    }
  }

  ghost predicate NoLostWakeup(g: Gateway) {
    forall w | w in g.waiters :: WillWake(g, w)
  }

  lemma ClusterStepWakes(g: Gateway, step: Step, w: nat)
    requires NoLostWakeup(g) && step.Cluster? && Can(g, step) && w in g.waiters
    ensures w in Next(g, step).waiters && WillWake(Next(g, step), w)
  {
    var g' := Next(g, step);
    var id := g.waiters[w].id;
    assert WillWake(g, w);
    if id in g'.cluster.broker.results {
      ResultsAreAnnounced(g.cluster, step.event, id);
      if Owed(g.cluster, id) {
        DebtStays(g.cluster, step.event, id);
      }
    }
    if id in g.bells {
      assert id in g'.bells;
    }
  }

  lemma ListenerStepWakes(g: Gateway, step: Step, w: nat)
    requires Wired(g) && NoLostWakeup(g) && Can(g, step) && w in g.waiters
    requires !OfWaiter(step) && !step.Cluster?
    ensures w in Next(g, step).waiters && WillWake(Next(g, step), w)
  {
    assert WillWake(g, w);
    if step.Take? {
      assert g.bells == [g.bells[0]] + g.bells[1..];
    }
    if step.Send? {
      assert w in Receivers(g, g.waiters[w].channel);
    }
  }

  lemma WaiterStepWakes(g: Gateway, step: Step, w: nat)
    requires Wired(g) && NoLostWakeup(g) && Can(g, step)
    requires OfWaiter(step)
    requires w in Next(g, step).waiters
    ensures WillWake(Next(g, step), w)
  {
  }

  lemma {:induction false} BehaviorWakes(gs: seq<Gateway>, steps: seq<Step>, k: nat)
    requires Behavior(gs, steps) && k < |gs|
    ensures NoLostWakeup(gs[k])
  {
    if k > 0 {
      BehaviorWakes(gs, steps, k - 1);
      BehaviorIsWired(gs, steps, k - 1);
      var g, step := gs[k - 1], steps[k - 1];
      forall w | w in gs[k].waiters ensures WillWake(gs[k], w) {
        if step.Cluster? {
          ClusterStepWakes(g, step, w);
        } else if OfWaiter(step) {
          WaiterStepWakes(g, step, w);
        } else {
          ListenerStepWakes(g, step, w);
        }
      }
    }
  }

  // ----- the bell arrives -----

  /** A step that brings a bell on its way, with no fault. */
  predicate Forwards(step: Step) {
    step.Take? || step.Send? || (step.Cluster? && step.event.Exec? && step.event.heard && !step.lost)
  }

  ghost predicate Path(g: Gateway, gs: seq<Gateway>, steps: seq<Step>) {
    Steps(gs, steps) && gs[0] == g && forall i | 0 <= i < |steps| :: Forwards(steps[i])
  }

  lemma Advance(g: Gateway, gs: seq<Gateway>, steps: seq<Step>, step: Step)
    returns (gs': seq<Gateway>, steps': seq<Step>)
    requires Path(g, gs, steps) && Wired(gs[|steps|]) && Can(gs[|steps|], step) && Forwards(step)
    ensures Path(g, gs', steps') && |steps'| == |steps| + 1
    ensures gs'[|steps'|] == Next(gs[|steps|], step) && Wired(gs'[|steps'|])
  {
    WiredStep(gs[|steps|], step);
    gs', steps' := Onward(gs, steps, step);
  }

  predicate IsParked(g: Gateway, w: nat, waiter: Waiter) {
    w in g.waiters && g.waiters[w] == waiter && waiter.phase.Parked?
  }

  predicate OnItsWay(g: Gateway, waiter: Waiter) {
    g.routing == Some(waiter.channel) || waiter.id in g.bells
  }

  /** The listener routes what it received until the waiter's bell rings. */
  lemma {:induction false} RouteUntilRung(g: Gateway, gs: seq<Gateway>, steps: seq<Step>, w: nat, waiter: Waiter)
    returns (gs': seq<Gateway>, steps': seq<Step>)
    requires Path(g, gs, steps) && Wired(gs[|steps|])
    requires IsParked(gs[|steps|], w, waiter) && OnItsWay(gs[|steps|], waiter)
    ensures Path(g, gs', steps') && IsParked(gs'[|steps'|], w, waiter) && Unread(gs'[|steps'|], w)
    ensures gs'[|steps'|].cluster == gs[|steps|].cluster
    ensures |steps'| <= |steps| + 2 * |gs[|steps|].bells| + (if gs[|steps|].routing.Some? then 1 else 0)
    decreases |gs[|steps|].bells|, gs[|steps|].routing.Some?
  {
    var now := gs[|steps|];
    ReceiverIsCounted(now, w);
    if now.routing.Some? {
      gs', steps' := Advance(g, gs, steps, Send);
      if now.routing.value != waiter.channel {
        gs', steps' := RouteUntilRung(g, gs', steps', w, waiter);
      }
    } else {
      gs', steps' := Advance(g, gs, steps, Take);
      assert now.bells == [now.bells[0]] + now.bells[1..];
      gs', steps' := RouteUntilRung(g, gs', steps', w, waiter);
    }
  }

  lemma PublishStep(g: Gateway, t: nat, id: JobId)
    requires Owes(g.cluster, t, id)
    ensures Can(g, Cluster(Exec(t, true), false))
    ensures var task, g' := g.cluster.tasks[t], Next(g, Cluster(Exec(t, true), false));
            && g'.waiters == g.waiters && g.cluster.broker.results.Keys <= g'.cluster.broker.results.Keys
            && (if task.done + 1 == |Commands(task.pipe)| then g'.bells == g.bells + [id]
                else g'.bells == g.bells && Owes(g'.cluster, t, id)
                     && g'.cluster.tasks[t].pipe == task.pipe && g'.cluster.tasks[t].done == task.done + 1)
  {
  }

  /** A client executes what is left of its pipe, up to the PUBLISH. */
  lemma {:induction false} PublishRest(g: Gateway, gs: seq<Gateway>, steps: seq<Step>, t: nat, w: nat, waiter: Waiter)
    returns (gs': seq<Gateway>, steps': seq<Step>)
    requires Path(g, gs, steps) && Wired(gs[|steps|]) && IsParked(gs[|steps|], w, waiter)
    requires Owes(gs[|steps|].cluster, t, waiter.id)
    ensures Path(g, gs', steps') && Wired(gs'[|steps'|]) && IsParked(gs'[|steps'|], w, waiter)
    ensures waiter.id in gs'[|steps'|].bells && |gs'[|steps'|].bells| == |gs[|steps|].bells| + 1
    ensures gs[|steps|].cluster.broker.results.Keys <= gs'[|steps'|].cluster.broker.results.Keys
    ensures var task := gs[|steps|].cluster.tasks[t];
            |steps'| == |steps| + |Commands(task.pipe)| - task.done
    decreases var task := gs[|steps|].cluster.tasks[t]; |Commands(task.pipe)| - task.done
  {
    var task := gs[|steps|].cluster.tasks[t];
    PublishStep(gs[|steps|], t, waiter.id);
    gs', steps' := Advance(g, gs, steps, Cluster(Exec(t, true), false));
    if task.done + 1 < |Commands(task.pipe)| {
      gs', steps' := PublishRest(g, gs', steps', t, w, waiter);
    }
  }

  /** Receiving the token and an answered GET end the wait. */
  predicate IsServed(g: Gateway, w: nat) {
    && Can(g, Recv(w)) && Can(Next(g, Recv(w)), Get(w, true))
    && Next(Next(g, Recv(w)), Get(w, true)).waiters[w].phase.Served?
  }

  lemma TokenServes(g: Gateway, w: nat)
    requires w in g.waiters && g.waiters[w].phase.Parked? && Unread(g, w)
    requires g.waiters[w].id in g.cluster.broker.results
    ensures IsServed(g, w)
  {
  }

  /** The recorded ways to be woken are real: from any point of any behaviour, a parked waiter whose
      result is stored and who has no fault on record has its token after a bounded number of
      faultless steps of one publisher and the listener, and is served by it. */
  lemma BellArrives(gs: seq<Gateway>, steps: seq<Step>, k: nat, w: nat)
    requires Behavior(gs, steps) && k < |gs| && w in gs[k].waiters
    requires gs[k].waiters[w].phase.Parked? && !gs[k].waiters[w].blamed
    requires gs[k].waiters[w].id in gs[k].cluster.broker.results
    ensures exists gs': seq<Gateway>, steps': seq<Step> ::
              Path(gs[k], gs', steps') && IsParked(gs'[|steps'|], w, gs[k].waiters[w])
              && IsServed(gs'[|steps'|], w) && |steps'| <= 2 * |gs[k].bells| + 7
  {
    BehaviorIsWired(gs, steps, k);
    BehaviorWakes(gs, steps, k);
    var g, waiter := gs[k], gs[k].waiters[w];
    assert WillWake(g, w);
    var gs', steps' := [g], [];
    if !Unread(g, w) {
      if !OnItsWay(g, waiter) {
        var t :| Owes(g.cluster, t, waiter.id);
        gs', steps' := PublishRest(g, gs', steps', t, w, waiter);
      }
      gs', steps' := RouteUntilRung(g, gs', steps', w, waiter);
    }
    TokenServes(gs'[|steps'|], w);
  }
}
