/**
 The local worker pool, src/orchestrator/pool.rs: a queue bounded by a counter that is checked and
 raised in two separate steps, and workers that lower it after they received a job. Permits are the
 ones of the Redis consumer in src/queue/redis.rs, if it is the only caller.
 */
module Pool {
  import opened Prelude

  /** `threads` is the number of threads that can be inside submit between its check and its send; it
      awaits nothing there. */
  datatype Config = Config(maxQueue: nat, threads: nat, workers: nat, permits: Option<nat>)

  datatype Section = Checked(job: nat) | Added(job: nat)

  datatype Stage = Received | Subtracted | Working | Replied

  datatype Work = Work(job: nat, stage: Stage)

  datatype Place = Waiting | InSubmit(t: nat) | InChannel | AtWorker(w: nat) | Answered

  datatype Pool = Pool(
    queued: int,                 // queued_jobs
    busy: int,                   // busy_workers
    channel: seq<nat>,
    sections: map<nat, Section>, // thread to its place in submit
    workers: map<nat, Work>,     // worker to its job; idle ones are absent
    waiting: seq<nat>,           // submissions before the check
    reporting: nat,              // submissions that got their answer and have not returned their permit
    rejected: nat,               // history: QUEUE_FULL answers
    places: seq<Place>           // history: where each submission, numbered in order, is
  )

  datatype Event =
    | Spawn             // a caller, holding a permit if there are any, calls submit
    | Check(t: nat)     // the queue check, and the first waiting submission enters or is rejected
    | Add(t: nat)       // fetch_add
    | Send(t: nat)
    | SendFails(t: nat) // fetch_sub: the receiver is gone
    | Recv(w: nat)
    | Subtract(w: nat)  // fetch_sub
    | Begin(w: nat)     // busy fetch_add
    | Reply(w: nat)
    | Rest(w: nat)      // busy fetch_sub
    | Return            // a caller drops its permit

  function InStage(p: Pool, stage: Stage): set<nat> {
    set w | w in p.workers && p.workers[w].stage == stage
  }

  function AddedThreads(p: Pool): set<nat> {
    set t | t in p.sections && p.sections[t].Added?
  }

  function CheckedThreads(p: Pool): set<nat> {
    set t | t in p.sections && p.sections[t].Checked?
  }

  function Unreplied(p: Pool): set<nat> {
    set w | w in p.workers && !p.workers[w].stage.Replied?
  }

  /** The submissions that have a permit. */
  function InFlight(p: Pool): nat {
    |p.waiting| + |p.sections.Keys| + |p.channel| + |Unreplied(p)| + p.reporting
  }

  predicate At(p: Pool, w: nat, stage: Stage) {
    w in p.workers && p.workers[w].stage == stage
  }

  predicate Enabled(c: Config, p: Pool, e: Event) {
    match e
    case Spawn => c.permits.Some? ==> InFlight(p) < c.permits.value
    case Check(t) => t < c.threads && t !in p.sections && p.waiting != []
    case Add(t) => t in p.sections && p.sections[t].Checked?
    case Send(t) => t in p.sections && p.sections[t].Added?
    case SendFails(t) => t in p.sections && p.sections[t].Added?
    case Recv(w) => w < c.workers && w !in p.workers && p.channel != []
    case Subtract(w) => At(p, w, Received)
    case Begin(w) => At(p, w, Subtracted)
    case Reply(w) => At(p, w, Working)
    case Rest(w) => At(p, w, Replied)
    case Return => p.reporting > 0
  }

  /** The submission an event moves, and where it moves it. */
  function Moves(c: Config, p: Pool, e: Event): Option<(nat, Place)>
    requires Enabled(c, p, e)
  {
    match e
    case Check(t) => Some((p.waiting[0], if p.queued >= c.maxQueue then Answered else InSubmit(t)))
    case Send(t) => Some((p.sections[t].job, InChannel))
    case SendFails(t) => Some((p.sections[t].job, Answered))
    case Recv(w) => Some((p.channel[0], AtWorker(w)))
    case Reply(w) => Some((p.workers[w].job, Answered))
    case _ => None
  }

  function Moved(c: Config, p: Pool, e: Event): seq<Place>
    requires Enabled(c, p, e)
  {
    if e.Spawn? then p.places + [Waiting]
    else
      var moved := Moves(c, p, e);
      if moved.Some? && moved.value.0 < |p.places| then p.places[moved.value.0 := moved.value.1] else p.places
  }

  function Do(c: Config, p: Pool, e: Event): Pool
    requires Enabled(c, p, e)
  {
    Act(c, p, e).(places := Moved(c, p, e))
  }

  function Act(c: Config, p: Pool, e: Event): Pool
    requires Enabled(c, p, e)
  {
    match e
    case Spawn => p.(waiting := p.waiting + [|p.places|])
    case Check(t) =>
      var rest := p.waiting[1..];
      if p.queued >= c.maxQueue then p.(waiting := rest, reporting := p.reporting + 1, rejected := p.rejected + 1)
      else p.(waiting := rest, sections := p.sections[t := Checked(p.waiting[0])])
    case Add(t) => p.(queued := p.queued + 1, sections := p.sections[t := Added(p.sections[t].job)])
    case Send(t) => p.(channel := p.channel + [p.sections[t].job], sections := p.sections - {t})
    case SendFails(t) => p.(queued := p.queued - 1, sections := p.sections - {t}, reporting := p.reporting + 1)
    case Recv(w) => p.(channel := p.channel[1..], workers := p.workers[w := Work(p.channel[0], Received)])
    case Subtract(w) => p.(queued := p.queued - 1, workers := p.workers[w := Work(p.workers[w].job, Subtracted)])
    case Begin(w) => p.(busy := p.busy + 1, workers := p.workers[w := Work(p.workers[w].job, Working)])
    case Reply(w) => p.(workers := p.workers[w := Work(p.workers[w].job, Replied)], reporting := p.reporting + 1)
    case Rest(w) => p.(busy := p.busy - 1, workers := p.workers - {w})
    case Return => p.(reporting := p.reporting - 1)
  }

  const IDLE := Pool(0, 0, [], map[], map[], [], 0, 0, [])

  ghost predicate Run(c: Config, ps: seq<Pool>, es: seq<Event>) {
    && |ps| == |es| + 1 && ps[0] == IDLE
    && forall i | 0 <= i < |es| :: Enabled(c, ps[i], es[i]) && ps[i + 1] == Do(c, ps[i], es[i])
  }

  // ----- counter conservation -----

  predicate QueuedConserved(p: Pool) {
    p.queued == |p.channel| + |AddedThreads(p)| + |InStage(p, Received)|
  }

  predicate BusyConserved(p: Pool) {
    p.busy == |InStage(p, Working)| + |InStage(p, Replied)|
  }

  predicate Conserved(c: Config, p: Pool) {
    && QueuedConserved(p) && BusyConserved(p)
    && (forall t | t in p.sections :: t < c.threads)
    && (forall w | w in p.workers :: w < c.workers)
  }

  lemma {:induction false} BoundedSet(xs: set<nat>, n: nat)
    requires forall x | x in xs :: x < n
    ensures |xs| <= n
  {
    if n > 0 {
      BoundedSet(xs - {n - 1}, n - 1);
    } else {
      assert xs == {};
    }
  }

  lemma SectionSets(p: Pool)
    ensures |p.sections| == |p.sections.Keys| == |AddedThreads(p)| + |CheckedThreads(p)|
  {
    assert p.sections.Keys == AddedThreads(p) + CheckedThreads(p);
  }

  lemma AllWorkers(p: Pool)
    ensures |p.workers.Keys| == |Unreplied(p)| + |InStage(p, Replied)|
  {
    assert p.workers.Keys == Unreplied(p) + InStage(p, Replied);
  }

  lemma WorkerSets(p: Pool)
    ensures |Unreplied(p)| == |InStage(p, Received)| + |InStage(p, Subtracted)| + |InStage(p, Working)|
  {
    var early := InStage(p, Received) + InStage(p, Subtracted);
    assert Unreplied(p) == early + InStage(p, Working);
    assert early !! InStage(p, Working) && InStage(p, Received) !! InStage(p, Subtracted);
  }

  /** How a step of a submitting thread changes the sets the counters stand for. */
  lemma SubmitterSets(c: Config, p: Pool, e: Event)
    requires Enabled(c, p, e)
    ensures var p' := Do(c, p, e);
            match e
            case Add(t) => AddedThreads(p') == AddedThreads(p) + {t} && t !in AddedThreads(p)
            case Send(t) => AddedThreads(p') == AddedThreads(p) - {t} && t in AddedThreads(p)
            case SendFails(t) => AddedThreads(p') == AddedThreads(p) - {t} && t in AddedThreads(p)
            case _ => AddedThreads(p') == AddedThreads(p)
  {
  }

  lemma WorkerStep(c: Config, p: Pool, e: Event, stage: Stage)
    requires Enabled(c, p, e)
    ensures var p', s := Do(c, p, e), InStage(p, stage);
            match e
            case Recv(w) => InStage(p', stage) == (if stage.Received? then s + {w} else s) && w !in s
            case Subtract(w) =>
              InStage(p', stage) == if stage.Received? then s - {w} else if stage.Subtracted? then s + {w} else s
            case Begin(w) =>
              InStage(p', stage) == if stage.Subtracted? then s - {w} else if stage.Working? then s + {w} else s
            case Reply(w) =>
              InStage(p', stage) == if stage.Working? then s - {w} else if stage.Replied? then s + {w} else s
            case Rest(w) => InStage(p', stage) == if stage.Replied? then s - {w} else s
            case _ => InStage(p', stage) == s
  {
  }

  predicate Submits(e: Event) {
    e.Spawn? || e.Check? || e.Add? || e.Send? || e.SendFails? || e.Return?
  }

  lemma SubmitterConserves(c: Config, p: Pool, e: Event)
    requires Enabled(c, p, e) && Submits(e) && QueuedConserved(p) && BusyConserved(p)
    ensures QueuedConserved(Do(c, p, e)) && BusyConserved(Do(c, p, e))
  {
    SubmitterSets(c, p, e);
    SameWorkers(p, Do(c, p, e));
  }

  lemma SameWorkers(p: Pool, p': Pool)
    requires p'.workers == p.workers
    ensures forall stage :: InStage(p', stage) == InStage(p, stage)
  {
  }

  lemma WorkerConservesQueued(c: Config, p: Pool, e: Event)
    requires Enabled(c, p, e) && !Submits(e) && QueuedConserved(p)
    ensures QueuedConserved(Do(c, p, e))
  {
    assert AddedThreads(Do(c, p, e)) == AddedThreads(p);
    WorkerStep(c, p, e, Received);
  }

  lemma WorkerConservesBusy(c: Config, p: Pool, e: Event)
    requires Enabled(c, p, e) && !Submits(e) && BusyConserved(p)
    ensures BusyConserved(Do(c, p, e))
  {
    WorkerStep(c, p, e, Working);
    WorkerStep(c, p, e, Replied);
  }

  lemma StepConserves(c: Config, p: Pool, e: Event)
    requires Conserved(c, p) && Enabled(c, p, e)
    ensures Conserved(c, Do(c, p, e))
  {
    if Submits(e) {
      SubmitterConserves(c, p, e);
    } else {
      WorkerConservesQueued(c, p, e);
      WorkerConservesBusy(c, p, e);
    }
  }

  /** Counter conservation over every interleaving: queued_jobs is the channel's length plus the
      submitters between add and send plus the workers between receive and subtract, so it never
      underflows; busy_workers counts the workers that run or just answered, at most all of them. */
  lemma {:induction false} CountersAreConserved(c: Config, ps: seq<Pool>, es: seq<Event>, k: nat)
    requires Run(c, ps, es) && k < |ps|
    ensures Conserved(c, ps[k])
    ensures 0 <= ps[k].queued && 0 <= ps[k].busy <= c.workers
  {
    if k > 0 {
      CountersAreConserved(c, ps, es, k - 1);
      StepConserves(c, ps[k - 1], es[k - 1]);
    }
    AllWorkers(ps[k]);
    WorkerSets(ps[k]);
    BoundedSet(ps[k].workers.Keys, c.workers);
  }

  // ----- one answer per submission -----

  predicate IsAt(p: Pool, place: Place, job: nat) {
    match place
    case Waiting => job in p.waiting
    case InSubmit(t) => t in p.sections && p.sections[t].job == job
    case InChannel => job in p.channel
    case AtWorker(w) => w in p.workers && !p.workers[w].stage.Replied? && p.workers[w].job == job
    case Answered => job < |p.places| && p.places[job] == Answered
  }

  ghost predicate Placed(p: Pool) {
    && (forall job: nat, place: Place :: IsAt(p, place, job) <==> (job < |p.places| && p.places[job] == place))
    && Distinct(p.waiting) && Distinct(p.channel)
  }

  lemma StepKeepsDistinct(c: Config, p: Pool, e: Event)
    requires Placed(p) && Enabled(c, p, e)
    ensures Distinct(Do(c, p, e).waiting) && Distinct(Do(c, p, e).channel)
  {
    assert e.Spawn? ==> !IsAt(p, Waiting, |p.places|);
    assert e.Send? ==> IsAt(p, InSubmit(e.t), p.sections[e.t].job) && !IsAt(p, InChannel, p.sections[e.t].job);
  }

  lemma SubmitterKeepsPlace(c: Config, p: Pool, e: Event, place: Place, job: nat)
    requires Placed(p) && Enabled(c, p, e) && Submits(e)
    ensures var p' := Do(c, p, e);
            IsAt(p', place, job) <==> (job < |p'.places| && p'.places[job] == place)
  {
    assert IsAt(p, place, job) <==> (job < |p.places| && p.places[job] == place);
    match e
    case Check(t) => assert IsAt(p, Waiting, p.waiting[0]);
    case Send(t) => assert IsAt(p, InSubmit(t), p.sections[t].job);
    case SendFails(t) => assert IsAt(p, InSubmit(t), p.sections[t].job);
    case _ =>
  }

  lemma WorkerKeepsPlace(c: Config, p: Pool, e: Event, place: Place, job: nat)
    requires Placed(p) && Enabled(c, p, e) && !Submits(e)
    ensures var p' := Do(c, p, e);
            IsAt(p', place, job) <==> (job < |p'.places| && p'.places[job] == place)
  {
    assert IsAt(p, place, job) <==> (job < |p.places| && p.places[job] == place);
    match e
    case Recv(w) => assert IsAt(p, InChannel, p.channel[0]);
    case Reply(w) => assert IsAt(p, AtWorker(w), p.workers[w].job);
    case _ =>
  }

  lemma StepKeepsPlaced(c: Config, p: Pool, e: Event)
    requires Placed(p) && Enabled(c, p, e)
    ensures Placed(Do(c, p, e))
  {
    var p' := Do(c, p, e);
    StepKeepsDistinct(c, p, e);
    forall job: nat, place: Place
      ensures IsAt(p', place, job) <==> (job < |p'.places| && p'.places[job] == place)
    {
      if Submits(e) {
        SubmitterKeepsPlace(c, p, e, place, job);
      } else {
        WorkerKeepsPlace(c, p, e, place, job);
      }
    }
  }

  lemma {:induction false} RunIsPlaced(c: Config, ps: seq<Pool>, es: seq<Event>, k: nat)
    requires Run(c, ps, es) && k < |ps|
    ensures Placed(ps[k])
  {
    if k > 0 {
      RunIsPlaced(c, ps, es, k - 1);
      StepKeepsPlaced(c, ps[k - 1], es[k - 1]);
    }
  }

  lemma MovesOnlyUnanswered(c: Config, p: Pool, e: Event)
    requires Placed(p) && Enabled(c, p, e)
    ensures var moved := Moves(c, p, e);
            moved.Some? ==> moved.value.0 < |p.places| && !IsAt(p, Answered, moved.value.0)
  {
    assert e.Check? ==> IsAt(p, Waiting, p.waiting[0]);
    assert e.Send? || e.SendFails? ==> IsAt(p, InSubmit(e.t), p.sections[e.t].job);
    assert e.Recv? ==> IsAt(p, InChannel, p.channel[0]);
    assert e.Reply? ==> IsAt(p, AtWorker(e.w), p.workers[e.w].job);
  }

  lemma {:induction false} AnsweredStays(c: Config, ps: seq<Pool>, es: seq<Event>, i: nat, k: nat, job: nat)
    requires Run(c, ps, es) && i <= k < |ps| && IsAt(ps[i], Answered, job)
    ensures IsAt(ps[k], Answered, job)
  {
    if i < k {
      AnsweredStays(c, ps, es, i, k - 1, job);
      RunIsPlaced(c, ps, es, k - 1);
      MovesOnlyUnanswered(c, ps[k - 1], es[k - 1]);
      assert ps[k] == Do(c, ps[k - 1], es[k - 1]);
    }
  }

  predicate Answers(c: Config, p: Pool, e: Event, job: nat) {
    Enabled(c, p, e) && Moves(c, p, e) == Some((job, Answered))
  }

  /** One answer per submission, over every interleaving: at each point a submission is in exactly one
      place, and no two events answer it. */
  lemma OneAnswerEach(c: Config, ps: seq<Pool>, es: seq<Event>, job: nat, k: nat)
    requires Run(c, ps, es) && k < |ps|
    ensures job < |ps[k].places| ==>
              exists place: Place :: IsAt(ps[k], place, job)
                && (forall other: Place :: IsAt(ps[k], other, job) ==> other == place)
    ensures forall i | 0 <= i < k < |es| && Answers(c, ps[i], es[i], job) :: !Answers(c, ps[k], es[k], job)
  {
    RunIsPlaced(c, ps, es, k);
    if job < |ps[k].places| {
      assert IsAt(ps[k], ps[k].places[job], job);
    }
    forall i | 0 <= i < k < |es| && Answers(c, ps[i], es[i], job) ensures !Answers(c, ps[k], es[k], job) {
      RunIsPlaced(c, ps, es, i);
      MovesOnlyUnanswered(c, ps[i], es[i]);
      assert ps[i + 1] == Do(c, ps[i], es[i]);
      AnsweredStays(c, ps, es, i + 1, k, job);
      MovesOnlyUnanswered(c, ps[k], es[k]);
    }
  }

  // ----- the order of the queue -----

  /** The submissions sent into the channel, and those received from it, by the first k events. */
  function SentBy(ps: seq<Pool>, es: seq<Event>, k: nat): seq<nat>
    requires k <= |es| < |ps|
  {
    if k == 0 then []
    else
      var p, e := ps[k - 1], es[k - 1];
      SentBy(ps, es, k - 1) + if e.Send? && e.t in p.sections then [p.sections[e.t].job] else []
  }

  function ReceivedBy(ps: seq<Pool>, es: seq<Event>, k: nat): seq<nat>
    requires k <= |es| < |ps|
  {
    if k == 0 then []
    else
      var p', e := ps[k], es[k - 1];
      ReceivedBy(ps, es, k - 1) + if e.Recv? && e.w in p'.workers then [p'.workers[e.w].job] else []
  }

  lemma ChannelStep(c: Config, p: Pool, e: Event)
    requires Enabled(c, p, e)
    ensures var p' := Do(c, p, e);
            match e
            case Send(t) => p'.channel == p.channel + [p.sections[t].job]
            case Recv(w) => w in p'.workers && p.channel == [p'.workers[w].job] + p'.channel
            case _ => p'.channel == p.channel
  {
  }

  /** First come, first served: in every run the workers receive the submissions in the order in which
      they were sent, none twice and none left out, and the channel holds the others. */
  lemma {:induction false} ChannelIsFifo(c: Config, ps: seq<Pool>, es: seq<Event>, k: nat)
    requires Run(c, ps, es) && k < |ps|
    ensures SentBy(ps, es, k) == ReceivedBy(ps, es, k) + ps[k].channel
  {
    if k > 0 {
      ChannelIsFifo(c, ps, es, k - 1);
      var p, e := ps[k - 1], es[k - 1];
      assert Enabled(c, p, e) && ps[k] == Do(c, p, e);
      ChannelStep(c, p, e);
    }
  }

  // ----- the overshoot of check-then-add -----

  lemma StepOvershoot(c: Config, p: Pool, e: Event)
    requires Conserved(c, p) && Enabled(c, p, e) && c.threads >= 1
    requires p.queued + |CheckedThreads(p)| <= c.maxQueue + c.threads - 1
    ensures Do(c, p, e).queued + |CheckedThreads(Do(c, p, e))| <= c.maxQueue + c.threads - 1
  {
    var p' := Do(c, p, e);
    match e
    case Check(t) =>
      StepConserves(c, p, e);
      SectionSets(p');
      BoundedSet(p'.sections.Keys, c.threads);
    case Add(t) =>
      assert CheckedThreads(p') == CheckedThreads(p) - {t} && t in CheckedThreads(p);
    case _ =>
      assert CheckedThreads(p') == CheckedThreads(p);
  }

  /** The check and the add are not atomic: with T threads the counter exceeds its limit by at most
      T - 1. */
  lemma {:induction false} QueueOvershootIsBounded(c: Config, ps: seq<Pool>, es: seq<Event>, k: nat)
    requires Run(c, ps, es) && k < |ps| && c.threads >= 1
    ensures ps[k].queued + |CheckedThreads(ps[k])| <= c.maxQueue + c.threads - 1
  {
    if k > 0 {
      QueueOvershootIsBounded(c, ps, es, k - 1);
      CountersAreConserved(c, ps, es, k - 1);
      StepOvershoot(c, ps[k - 1], es[k - 1]);
    } else {
      assert CheckedThreads(ps[0]) == {};
    }
  }

  lemma Extend(c: Config, ps: seq<Pool>, es: seq<Event>, e: Event) returns (ps': seq<Pool>, es': seq<Event>)
    requires Run(c, ps, es) && Enabled(c, ps[|es|], e)
    ensures Run(c, ps', es') && ps'[|es'|] == Do(c, ps[|es|], e)
  {
    ps', es' := ps + [Do(c, ps[|es|], e)], es + [e];
  }

  /** m submissions are in the channel, n are waiting, and nothing else goes on. */
  predicate Filled(p: Pool, m: nat, n: nat) {
    && p.queued == |p.channel| == m && |p.waiting| == n && p.rejected == p.reporting == 0
    && p.sections == map[] && p.workers == map[]
  }

  lemma {:induction false} LineUp(c: Config, n: nat) returns (ps: seq<Pool>, es: seq<Event>)
    requires c.permits.Some? ==> n <= c.permits.value
    ensures Run(c, ps, es) && Filled(ps[|es|], 0, n)
  {
    if n == 0 {
      ps, es := [IDLE], [];
    } else {
      ps, es := LineUp(c, n - 1);
      assert Unreplied(ps[|es|]) == {};
      ps, es := Extend(c, ps, es, Spawn);
    }
  }

  lemma {:induction false} Fill(c: Config, m: nat, n: nat) returns (ps: seq<Pool>, es: seq<Event>)
    requires m <= c.maxQueue && c.threads >= 1 && (c.permits.Some? ==> m + n <= c.permits.value)
    ensures Run(c, ps, es) && Filled(ps[|es|], m, n)
    decreases m
  {
    if m == 0 {
      ps, es := LineUp(c, n);
    } else {
      ps, es := Fill(c, m - 1, n + 1);
      ps, es := Extend(c, ps, es, Check(0));
      ps, es := Extend(c, ps, es, Add(0));
      ps, es := Extend(c, ps, es, Send(0));
    }
  }

  /** Threads 0..t passed the check when one place was left, and the first a of them added. */
  ghost predicate Racing(c: Config, p: Pool, t: nat, a: nat) {
    && p.queued == c.maxQueue - 1 + a && |p.waiting| + t == c.threads
    && (forall u: nat :: u in p.sections <==> u < t)
    && (forall u | u in p.sections :: p.sections[u].Added? <==> u < a)
  }

  lemma {:induction false} Race(c: Config, t: nat) returns (ps: seq<Pool>, es: seq<Event>)
    requires c.maxQueue >= 1 && c.permits.None? && t <= c.threads && c.threads >= 1
    ensures Run(c, ps, es) && Racing(c, ps[|es|], t, 0)
  {
    if t == 0 {
      ps, es := Fill(c, c.maxQueue - 1, c.threads);
    } else {
      ps, es := Race(c, t - 1);
      ps, es := Extend(c, ps, es, Check(t - 1));
    }
  }

  lemma {:induction false} AddAll(c: Config, a: nat) returns (ps: seq<Pool>, es: seq<Event>)
    requires c.maxQueue >= 1 && c.permits.None? && a <= c.threads && c.threads >= 1
    ensures Run(c, ps, es) && Racing(c, ps[|es|], c.threads, a)
  {
    if a == 0 {
      ps, es := Race(c, c.threads);
    } else {
      ps, es := AddAll(c, a - 1);
      ps, es := Extend(c, ps, es, Add(a - 1));
    }
  }

  /** The bound is attained for every limit and number of threads. */
  lemma QueueOvershootHappens(c: Config)
    requires c.maxQueue >= 1 && c.threads >= 1 && c.permits.None?
    ensures exists ps: seq<Pool>, es: seq<Event> :: Run(c, ps, es) && ps[|es|].queued == c.maxQueue + c.threads - 1
  {
    var ps, es := AddAll(c, c.threads);
    assert Run(c, ps, es);
  }

  // ----- the Redis consumer as the only caller -----

  lemma UnrepliedStep(c: Config, p: Pool, e: Event)
    requires Enabled(c, p, e)
    ensures var before, after := Unreplied(p), Unreplied(Do(c, p, e));
            match e
            case Recv(w) => after == before + {w} && w !in before
            case Reply(w) => after == before - {w} && w in before
            case _ => after == before
  {
  }

  lemma SectionStep(c: Config, p: Pool, e: Event)
    requires Enabled(c, p, e)
    ensures var before, after := p.sections.Keys, Do(c, p, e).sections.Keys;
            match e
            case Check(t) => after == if p.queued < c.maxQueue then before + {t} else before
            case Send(t) => after == before - {t} && t in before
            case SendFails(t) => after == before - {t} && t in before
            case _ => after == before
  {
  }

  lemma StepInFlight(c: Config, p: Pool, e: Event)
    requires Enabled(c, p, e)
    ensures InFlight(Do(c, p, e)) == InFlight(p) + (if e.Spawn? then 1 else if e.Return? then -1 else 0)
  {
    UnrepliedStep(c, p, e);
    SectionStep(c, p, e);
  }

  lemma {:induction false} PermitsBound(c: Config, ps: seq<Pool>, es: seq<Event>, k: nat)
    requires Run(c, ps, es) && k < |ps| && c.permits.Some?
    ensures InFlight(ps[k]) <= c.permits.value
  {
    if k > 0 {
      PermitsBound(c, ps, es, k - 1);
      CountersAreConserved(c, ps, es, k - 1);
      StepInFlight(c, ps[k - 1], es[k - 1]);
    } else {
      assert Unreplied(ps[0]) == {};
    }
  }

  lemma QueuedIsInFlight(c: Config, p: Pool)
    requires Conserved(c, p)
    ensures p.queued + |p.waiting| <= InFlight(p)
  {
    SectionSets(p);
    WorkerSets(p);
  }

  lemma NotFullStep(c: Config, p: Pool, e: Event)
    requires Conserved(c, p) && Enabled(c, p, e) && InFlight(p) <= c.maxQueue
    ensures Do(c, p, e).rejected == p.rejected
  {
    QueuedIsInFlight(c, p);
  }

  lemma {:induction false} NeverFull(c: Config, ps: seq<Pool>, es: seq<Event>, k: nat)
    requires Run(c, ps, es) && k < |ps| && c.permits.Some? && c.permits.value <= c.maxQueue
    ensures ps[k].rejected == 0
  {
    if k > 0 {
      NeverFull(c, ps, es, k - 1);
      CountersAreConserved(c, ps, es, k - 1);
      PermitsBound(c, ps, es, k - 1);
      assert Enabled(c, ps[k - 1], es[k - 1]) && ps[k] == Do(c, ps[k - 1], es[k - 1]);
      NotFullStep(c, ps[k - 1], es[k - 1]);
    }
  }

  /** If the Redis consumer is the only caller, with permits for two jobs per worker and at least four, a
      claimed job can be turned away with QUEUE_FULL, which the consumer reports as a RuntimeError,
      exactly if its permits exceed the queue limit. */
  lemma ConsumerIsNeverRejectedIff(maxQueue: nat, threads: nat, workers: nat)
    requires threads >= 1
    ensures var c := Config(maxQueue, threads, workers, Some(if workers < 2 then 4 else 2 * workers));
            (forall ps: seq<Pool>, es: seq<Event> :: Run(c, ps, es) ==> ps[|es|].rejected == 0)
            <==> 2 * workers <= maxQueue && 4 <= maxQueue
  {
    var c := Config(maxQueue, threads, workers, Some(if workers < 2 then 4 else 2 * workers));
    if c.permits.value <= maxQueue {
      forall ps: seq<Pool>, es: seq<Event> | Run(c, ps, es) ensures ps[|es|].rejected == 0 {
        NeverFull(c, ps, es, |es|);
      }
    } else {
      var ps, es := Fill(c, maxQueue, 1);
      ps, es := Extend(c, ps, es, Check(0));
      assert Run(c, ps, es) && ps[|es|].rejected == 1;
    }
  }
}
