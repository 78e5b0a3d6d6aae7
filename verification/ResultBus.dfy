/** The sequential code of src/api/result_bus.rs: enqueue, the waiter registry, and wait_for. */
module ResultBus {
  import opened Prelude
  import opened Redis
  import opened Publisher
  import opened Channels
  import Cluster

  type Outcome = Cluster.EnqueueOutcome

  // ----- enqueue -----

  /** The connection's fate at the claiming pipe, the XADD and the rollback. */
  datatype Fates = Fates(claim: Attempt, append: Attempt, rollback: Attempt)

  function Send(b: Broker, pipe: Pipe, attempt: Attempt): Broker {
    Sent(b, Commands(pipe), attempt)
  }

  /** What enqueue returns, and the broker it leaves, when nobody else acts in between. */
  function Enqueued(b: Broker, request: Request, fates: Fates): (Broker, Outcome) {
    var b1 := Send(b, Claim(request), fates.claim);
    if fates.claim.Broken? then (b1, Cluster.RedisDown)
    else if request.jobId in b.markers then (b1, Cluster.Duplicate)
    else
      var b2 := Send(b1, Append(request), fates.append);
      if fates.append.Answered? then (b2, Cluster.Queued)
      else (Send(b2, Rollback(request), fates.rollback), Cluster.RedisDown)
  }

  method Enqueue(connection: Connection, request: Request, fates: Fates) returns (outcome: Outcome)
    modifies connection
    ensures (connection.broker, outcome) == Enqueued(old(connection.broker), request, fates)
  {
    var marked := request.jobId in connection.broker.markers;  // the reply to SET NX
    var ok := connection.SendPipe(Commands(Claim(request)), fates.claim);
    if !ok {
      return Cluster.RedisDown;
    }
    if marked {
      return Cluster.Duplicate;
    }
    ok := connection.SendPipe(Commands(Append(request)), fates.append);
    if ok {
      return Cluster.Queued;
    }
    var _ := connection.SendPipe(Commands(Rollback(request)), fates.rollback);
    return Cluster.RedisDown;
  }

  lemma ApplyOne(b: Broker, cmd: Command)
    ensures ApplyAll(b, [cmd]) == Apply(b, cmd)
  {
  }

  lemma SendClaim(b: Broker, request: Request, attempt: Attempt)
    ensures var n := Executed(attempt, Commands(Claim(request)));
            Send(b, Claim(request), attempt) ==
              if n == 0 then b
              else if n == 1 then Apply(b, DelResult(request.jobId))
              else Apply(Apply(b, DelResult(request.jobId)), SetMarkerNX(request.jobId))
  {
    var cmds := Commands(Claim(request));
    assert cmds[..0] == [] && cmds[..1] == [cmds[0]] && cmds[..2] == [cmds[0]] + [cmds[1]];
    ApplyOne(b, cmds[0]);
    ApplyOne(Apply(b, cmds[0]), cmds[1]);
    ApplyAllConcat(b, [cmds[0]], [cmds[1]]);
  }

  lemma SendSingle(b: Broker, pipe: Pipe, attempt: Attempt)
    requires pipe.Append? || pipe.Rollback?
    ensures Send(b, pipe, attempt) == if Executed(attempt, Commands(pipe)) == 0 then b else Apply(b, Commands(pipe)[0])
  {
    var cmds := Commands(pipe);
    assert cmds[..0] == [] && cmds[..1] == [cmds[0]];
    ApplyOne(b, cmds[0]);
  }

  /** The request reached the broker up to its n-th command. */
  predicate Reached(attempt: Attempt, n: nat) {
    attempt.Answered? || attempt.executed >= n
  }

  /** Exactly when enqueue returns what, from the broker it finds and the fates of its requests: Queued if
      claim and XADD were answered and the id was unmarked, Duplicate if the claim was answered and the
      id was marked, and RedisDown in all other cases. And exactly what it leaves: the older result is
      gone if the DEL was executed, the entry is added if the id was unmarked and the XADD was executed,
      and an unmarked id is marked if the SET NX was executed and no rollback was. */
  lemma EnqueueOutcomes(b: Broker, request: Request, fates: Fates)
    ensures var marked, outcome := request.jobId in b.markers, Enqueued(b, request, fates).1;
            && (outcome.Queued? <==> fates.claim.Answered? && !marked && fates.append.Answered?)
            && (outcome.Duplicate? <==> fates.claim.Answered? && marked)
            && (outcome.RedisDown? <==> fates.claim.Broken? || (!marked && fates.append.Broken?))
    ensures var b', id := Enqueued(b, request, fates).0, request.jobId;
            var won := fates.claim.Answered? && id !in b.markers;
            var rolledBack := won && fates.append.Broken? && Reached(fates.rollback, 1);
            && b'.results == (if Reached(fates.claim, 1) then b.results - {id} else b.results)
            && b'.stream == b.stream + (if won && Reached(fates.append, 1) then [Job(request)] else [])
            && b'.markers == (if Reached(fates.claim, 2) && !rolledBack then b.markers + {id} else b.markers)
            && b' == b.(results := b'.results, stream := b'.stream, markers := b'.markers)
  {
    SendClaim(b, request, fates.claim);
    var b1 := Send(b, Claim(request), fates.claim);
    SendSingle(b1, Append(request), fates.append);
    SendSingle(Send(b1, Append(request), fates.append), Rollback(request), fates.rollback);
  }

  /** enqueue promises that a failed attempt does not make a retry look like a duplicate. At the moment
      it returns RedisDown it keeps the promise exactly unless the reply to an executed SET NX was lost,
      or the rollback was not executed. Commands of a broken pipe that reach the broker after that are
      the business of MarkerIsLeftIff in ClusterMarkers. */
  lemma RedisDownLeavesMarkerIff(b: Broker, request: Request, fates: Fates)
    requires request.jobId !in b.markers && Enqueued(b, request, fates).1.RedisDown?
    ensures request.jobId in Enqueued(b, request, fates).0.markers
        <==> if fates.claim.Broken? then fates.claim.executed >= 2
             else fates.rollback.Broken? && fates.rollback.executed == 0
  {
    SendClaim(b, request, fates.claim);
    var b1 := Send(b, Claim(request), fates.claim);
    SendSingle(b1, Append(request), fates.append);
    SendSingle(Send(b1, Append(request), fates.append), Rollback(request), fates.rollback);
  }

  /** No reply is lost and no connection breaks. */
  predicate Heard(es: seq<Cluster.Event>) {
    forall i | 0 <= i < |es| :: es[i].Exec? && es[i].heard
  }

  /** Only task t acts. */
  function ByTask(t: nat): (Cluster.State, Cluster.Event) -> bool {
    (s: Cluster.State, e: Cluster.Event) => (e.Exec? || e.Break?) && e.task == t
  }

  lemma ClaimIsProtocol(s0: Cluster.State, ss: seq<Cluster.State>, es: seq<Cluster.Event>, t: nat, request: Request,
        claim: Attempt)
    returns (ss': seq<Cluster.State>, es': seq<Cluster.Event>)
    requires Cluster.Path(ByTask(t), s0, ss, es)
    requires t in ss[|es|].tasks && ss[|es|].tasks[t] == Cluster.Flight(Claim(request), 0)
    ensures Cluster.Path(ByTask(t), s0, ss', es') && (Heard(es) && claim.Answered? ==> Heard(es'))
    ensures var s, s' := ss[|es|], ss'[|es'|];
            && s'.broker == Send(s.broker, Claim(request), claim)
            && s'.tasks == s.tasks[t := if claim.Broken? then Cluster.Answered(request, Cluster.RedisDown)
                                        else if request.jobId in s.broker.markers
                                        then Cluster.Answered(request, Cluster.Duplicate)
                                        else Cluster.Flight(Append(request), 0)]
  {
    var s := ss[|es|];
    SendClaim(s.broker, request, claim);
    var n := Executed(claim, Commands(Claim(request)));
    ss', es' := ss, es;
    if n > 0 {
      ss', es' := Cluster.Walk(ByTask(t), s0, ss', es', Cluster.Exec(t, true));
    }
    if n > 1 {
      ss', es' := Cluster.Walk(ByTask(t), s0, ss', es', Cluster.Exec(t, claim.Answered?));
    } else {
      ss', es' := Cluster.Walk(ByTask(t), s0, ss', es', Cluster.Break(t, None));
    }
  }

  lemma SingleIsProtocol(s0: Cluster.State, ss: seq<Cluster.State>, es: seq<Cluster.Event>, t: nat, pipe: Pipe,
        attempt: Attempt)
    returns (ss': seq<Cluster.State>, es': seq<Cluster.Event>)
    requires pipe.Append? || pipe.Rollback?
    requires Cluster.Path(ByTask(t), s0, ss, es)
    requires t in ss[|es|].tasks && ss[|es|].tasks[t] == Cluster.Flight(pipe, 0)
    ensures Cluster.Path(ByTask(t), s0, ss', es') && (Heard(es) && attempt.Answered? ==> Heard(es'))
    ensures var s, s' := ss[|es|], ss'[|es'|];
            && s'.broker == Send(s.broker, pipe, attempt)
            && s'.tasks == s.tasks[t := if pipe.Rollback? then Cluster.Answered(pipe.request, Cluster.RedisDown)
                                        else if attempt.Answered? then Cluster.Answered(pipe.request, Cluster.Queued)
                                        else Cluster.Flight(Rollback(pipe.request), 0)]
  {
    SendSingle(ss[|es|].broker, pipe, attempt);
    if Executed(attempt, Commands(pipe)) == 0 {
      ss', es' := Cluster.Walk(ByTask(t), s0, ss, es, Cluster.Break(t, None));
    } else {
      ss', es' := Cluster.Walk(ByTask(t), s0, ss, es, Cluster.Exec(t, attempt.Answered?));
    }
  }

  /** enqueue, run by itself, is a run of the protocol's enqueue task: same broker, same outcome, and
      without a fault if claim and XADD are answered. */
  lemma EnqueueIsProtocol(s: Cluster.State, t: nat, request: Request, fates: Fates)
    requires t in s.tasks && s.tasks[t] == Cluster.Flight(Claim(request), 0)
    ensures exists ss: seq<Cluster.State>, es: seq<Cluster.Event> ::
              Cluster.Path(ByTask(t), s, ss, es) && ss[|es|].broker == Enqueued(s.broker, request, fates).0
              && (fates.claim.Answered? && fates.append.Answered? ==> Heard(es))
              && ss[|es|].tasks == s.tasks[t := Cluster.Answered(request, Enqueued(s.broker, request, fates).1)]
  {
    var ss, es := ClaimIsProtocol(s, [s], [], t, request, fates.claim);
    if fates.claim.Answered? && request.jobId !in s.broker.markers {
      ss, es := SingleIsProtocol(s, ss, es, t, Append(request), fates.append);
      if fates.append.Broken? {
        ss, es := SingleIsProtocol(s, ss, es, t, Rollback(request), fates.rollback);
      }
    }
    assert Cluster.Path(ByTask(t), s, ss, es);
  }

  // ----- the waiter registry -----

  /** tokio's broadcast channel of capacity 1: only how often it was sent on matters. */
  class Sender {
    var sent: nat
    var receivers: nat

    constructor ()
      ensures sent == 0 && receivers == 0
    {
      sent, receivers := 0, 0;
    }
  }

  class Receiver {
    const channel: Sender
    var next: nat

    constructor (channel: Sender)
      ensures this.channel == channel && next == channel.sent
    {
      this.channel := channel;
      next := channel.sent;
    }

    ghost predicate Unread()
      reads this, channel
    {
      next < channel.sent
    }

    /** recv, when something is unread. */
    method Recv() returns (lagged: bool)
      requires Unread()
      modifies this
      ensures next == AfterRecv(old(next), channel.sent)
      ensures lagged <==> old(next) + 1 < channel.sent
      ensures channel.sent == next + if lagged then 1 else 0
    {
      lagged := next + 1 < channel.sent;
      next := if lagged then channel.sent - 1 else channel.sent;
    }
  }

  class Registry {
    var senders: map<JobId, Sender>
    ghost var made: set<Sender>

    ghost predicate Valid()
      reads this
    {
      senders.Values <= made
    }

    ghost function View(): Hub<Sender>
      reads this, made
    {
      Hub(senders, map s | s in made :: Channel(s.sent, s.receivers))
    }

    constructor ()
      ensures Valid() && View() == Hub(map[], map[])
    {
      senders, made := map[], {};
    }

    method Register(id: JobId) returns (rx: Receiver)
      requires Valid()
      modifies this, senders.Values
      ensures Valid() && fresh(made - old(made)) && fresh(rx)
      ensures id !in old(senders) ==> rx.channel !in old(made)
      ensures View() == Subscribed(old(View()), id, rx.channel)
      ensures rx.channel == senders[id] && !rx.Unread()
    {
      if id !in senders {
        var tx := new Sender();
        senders := senders[id := tx];
        made := made + {tx};
      }
      var tx := senders[id];
      tx.receivers := tx.receivers + 1;
      rx := new Receiver(tx);
    }

    /** WaiterGuard::drop. */
    method DropGuard(id: JobId)
      requires Valid()
      modifies this
      ensures Valid() && made == old(made) && View() == GuardDropped(old(View()), id)
    {
      if id in senders && senders[id].receivers == 0 {
        senders := senders - {id};
      }
    }

    /** The listener clones the sender under the lock: it can be rung from then on. */
    method Lookup(id: JobId) returns (tx: Option<Sender>)
      requires Valid()
      ensures tx.Some? <==> id in senders
      ensures tx.Some? ==> tx.value in made && tx.value == senders[id]
    {
      tx := if id in senders then Some(senders[id]) else None;
    }

    /** A send on a cloned sender, whatever happened to the entry meanwhile. */
    method Ring(tx: Sender)
      requires Valid() && tx in made
      modifies tx
      ensures Valid() && View() == Rung(old(View()), tx)
    {
      if tx.receivers > 0 {
        tx.sent := tx.sent + 1;
      }
    }

    /** run_listener's body for one bell: afterwards every receiver of the id's channel, `rx` being any,
        has something unread, and other channels are as before. */
    method RouteBell(id: JobId, ghost rx: Receiver)
      requires Valid()
      modifies senders.Values
      ensures Valid() && senders == old(senders) && made == old(made)
      ensures id in senders && rx.channel == senders[id] ==>
                old(rx.channel.receivers > 0 && rx.next <= rx.channel.sent) ==> rx.Unread()
      ensures View() == if id in senders then Rung(old(View()), senders[id]) else old(View())
    {
      var tx := Lookup(id);
      if tx.Some? {
        Ring(tx.value);
        assert View().channels[tx.value] == Channel(tx.value.sent, tx.value.receivers);
        assert old(View()).channels[tx.value] == Channel(old(senders[id].sent), old(senders[id].receivers));
      }
    }

    method DropReceiver(rx: Receiver)
      requires Valid() && rx.channel in made && rx.channel.receivers > 0
      modifies rx.channel
      ensures Valid() && View() == ReceiverDropped(old(View()), rx.channel)
    {
      rx.channel.receivers := rx.channel.receivers - 1;
    }

    /** The end of wait_for: `let (mut rx, _guard)` drops the guard first. It never frees the entry. */
    method Leave(id: JobId, rx: Receiver)
      requires Valid() && id in senders && rx.channel == senders[id] && rx.channel.receivers > 0
      modifies this, rx.channel
      ensures Valid() && senders == old(senders) && View() == ReceiverDropped(old(View()), rx.channel)
    {
      DropGuard(id);
      DropReceiver(rx);
    }
  }

  // ----- wait_for -----

  datatype Wake = Bell | Closed | Timer

  const SAFETY_POLL_MS: nat := 2000

  /** What happens to one wait_for, by the number g of its GETs and the time `at` which it is made: what
      the GET yields (no result, too, if Redis fails), the clock's reading after it, and how and when the
      select that follows ends, given that reading and the longest it may take. */
  datatype World = World(
    reply: (nat, nat) -> Option<JobResult>,
    after: (nat, nat) -> nat,
    wake: (nat, nat, nat) -> Wake,
    awake: (nat, nat, nat) -> nat
  )

  /** The clock reaches the deadline. */
  ghost predicate Terminates(w: World, deadline: nat, horizon: nat) {
    forall g: nat, at: nat :: g >= horizon ==> w.after(g, at) >= deadline
  }

  /** The longest the select may take: the safety poll, but not past the deadline. */
  function Poll(deadline: nat, now: nat): (limit: nat)
    requires now < deadline
    ensures limit <= 2000 && now + limit <= deadline && (limit == 2000 || now + limit == deadline)
  {
    Min(SAFETY_POLL_MS, deadline - now)
  }

  /** After GET number g there was time left, and the select that was begun then ended because the channel
      was closed. */
  predicate Closes(w: World, deadline: nat, at: seq<nat>, g: nat)
    requires g < |at|
  {
    var now := w.after(g, at[g]);
    now < deadline && w.wake(g, now, Poll(deadline, now)).Closed?
  }

  /** The GET after GET number g comes at once: the select before it was the first that ended so. */
  predicate AtOnce(w: World, deadline: nat, at: seq<nat>, g: nat)
    requires g < |at|
  {
    0 < g && Closes(w, deadline, at, g - 1) && forall j | 0 <= j < g - 1 :: !Closes(w, deadline, at, j)
  }

  /** When the GET after GET number g is made: when the select ends that was begun after it, before the
      deadline, or at once if polling takes over. */
  predicate Follows(w: World, deadline: nat, at: seq<nat>, g: nat, next: nat)
    requires g < |at|
  {
    var now := w.after(g, at[g]);
    if AtOnce(w, deadline, at, g) then next == now
    else now < deadline && next == w.awake(g, now, Poll(deadline, now))
  }

  /** GET number g was without result, and the next one followed it. */
  predicate GoesOn(w: World, deadline: nat, at: seq<nat>, g: nat)
    requires g + 1 < |at|
  {
    w.reply(g, at[g]).None? && Follows(w, deadline, at, g, at[g + 1])
  }

  /** The times of the GETs of a wait_for: the first at `start`, each later one after the one before. */
  ghost predicate Waited(w: World, start: nat, deadline: nat, at: seq<nat>) {
    at != [] && at[0] == start && forall g | 0 <= g < |at| - 1 :: GoesOn(w, deadline, at, g)
  }

  lemma ClosesBefore(w: World, deadline: nat, at: seq<nat>, next: nat)
    ensures forall g | 0 <= g < |at| :: Closes(w, deadline, at + [next], g) <==> Closes(w, deadline, at, g)
  {
  }

  lemma AtOnceBefore(w: World, deadline: nat, at: seq<nat>, next: nat, g: nat)
    requires g < |at|
    ensures AtOnce(w, deadline, at + [next], g) <==> AtOnce(w, deadline, at, g)
  {
    ClosesBefore(w, deadline, at, next);
  }

  lemma WaitedMore(w: World, start: nat, deadline: nat, at: seq<nat>, next: nat)
    requires Waited(w, start, deadline, at) && w.reply(|at| - 1, at[|at| - 1]).None?
    requires Follows(w, deadline, at, |at| - 1, next)
    ensures Waited(w, start, deadline, at + [next])
  {
    var at' := at + [next];
    forall g | 0 <= g < |at| ensures GoesOn(w, deadline, at', g) {
      AtOnceBefore(w, deadline, at, next, g);
      if g < |at| - 1 {
        assert GoesOn(w, deadline, at, g);
      }
    }
  }

  /** The fallback when the channel is closed: poll until the result appears or the deadline passes. */
  method PollUntil(w: World, start: nat, deadline: nat, before: seq<nat>, ghost horizon: nat)
    returns (r: Option<JobResult>, at: seq<nat>)
    requires Terminates(w, deadline, horizon) && Waited(w, start, deadline, before)
    requires w.reply(|before| - 1, before[|before| - 1]).None? && AtOnce(w, deadline, before, |before| - 1)
    ensures Waited(w, start, deadline, at) && r == w.reply(|at| - 1, at[|at| - 1])
    ensures r.None? ==> w.after(|at| - 1, at[|at| - 1]) >= deadline
  {
    at := before;
    ghost var closed := |before| - 2;
    var next := w.after(|at| - 1, at[|at| - 1]);
    while true
      invariant Waited(w, start, deadline, at) && w.reply(|at| - 1, at[|at| - 1]).None?
      invariant closed < |at| - 1 && Closes(w, deadline, at, closed)
      invariant Follows(w, deadline, at, |at| - 1, next)
      decreases horizon + |before| + 1 - |at|
    {
      WaitedMore(w, start, deadline, at, next);
      ClosesBefore(w, deadline, at, next);
      at := at + [next];
      r := w.reply(|at| - 1, next);
      var now := w.after(|at| - 1, next);
      if r.Some? || now >= deadline {
        return;
      }
      next := w.awake(|at| - 1, now, Poll(deadline, now));
    }
  }

  /** wait_for returns what its last GET yields, and that is the first result any of its GETs yields. Each
      of them is made when a select has ended, which waits for the bell and no longer than the safety poll
      and the deadline. It gives up only after a GET without a result that was followed by a reading of
      the clock past the deadline, whatever the bells did. */
  method WaitFor(w: World, start: nat, deadline: nat, ghost horizon: nat)
    returns (r: Option<JobResult>, at: seq<nat>)
    requires Terminates(w, deadline, horizon)
    ensures Waited(w, start, deadline, at) && r == w.reply(|at| - 1, at[|at| - 1])
    ensures r.None? ==> w.after(|at| - 1, at[|at| - 1]) >= deadline
  {
    at := [start];
    r := w.reply(0, start);
    if r.Some? {
      return;
    }
    while true
      invariant Waited(w, start, deadline, at) && r.None? && r == w.reply(|at| - 1, at[|at| - 1])
      invariant forall g | 0 <= g < |at| - 1 :: !Closes(w, deadline, at, g)
      decreases horizon + 2 - |at|
    {
      var g := |at| - 1;
      var now := w.after(g, at[g]);
      if now >= deadline {
        return;
      }
      var next := w.awake(g, now, Poll(deadline, now));
      WaitedMore(w, start, deadline, at, next);
      ClosesBefore(w, deadline, at, next);
      at := at + [next];
      r := w.reply(g + 1, next);
      if r.Some? {
        return;
      }
      if w.wake(g, now, Poll(deadline, now)).Closed? {
        r, at := PollUntil(w, start, deadline, at, horizon);
        return;
      }
    }
  }

  /** A clock reading follows its GET within `delta`, and a select ends within `slack` of its limit. */
  ghost predicate Timely(w: World, delta: nat, slack: nat) {
    && (forall g: nat, at: nat :: at <= w.after(g, at) <= at + delta)
    && (forall g: nat, now: nat, limit: nat :: now <= w.awake(g, now, limit) <= now + limit + slack)
  }

  /** The result is there, and Redis answers, from `time` on. */
  ghost predicate VisibleFrom(w: World, time: nat) {
    forall g: nat, at: nat :: at >= time ==> w.reply(g, at).Some?
  }

  /** Waiting does not depend on the bell: a result that is there `delta` before the deadline is
      returned, even if every bell is lost, and, unless the first GET already saw it, the GET that
      returns it is made within two seconds and the delays. */
  lemma ResultIsReturnedSoon(w: World, start: nat, deadline: nat, at: seq<nat>, delta: nat, slack: nat, time: nat)
    requires Timely(w, delta, slack) && VisibleFrom(w, time)
    requires Waited(w, start, deadline, at)
    requires w.reply(|at| - 1, at[|at| - 1]).None? ==> w.after(|at| - 1, at[|at| - 1]) >= deadline
    ensures time + delta <= deadline ==> w.reply(|at| - 1, at[|at| - 1]).Some?
    ensures |at| > 1 ==> at[|at| - 1] < time + delta + SAFETY_POLL_MS + slack
  {
    var last := |at| - 1;
    assert w.after(last, at[last]) <= at[last] + delta;
    if last > 0 {
      assert GoesOn(w, deadline, at, last - 1);
      assert at[last - 1] < time && w.after(last - 1, at[last - 1]) <= at[last - 1] + delta;
    }
  }
}
