/** One batch of the reclaim sweep, run_reclaim in src/queue/redis.rs. */
module Sweep {
  import opened Prelude
  import opened Redis
  import opened Publisher
  import Cluster

  /** What the network does to the sweep's commands, by position in the batch. */
  datatype Env = Env(
    heard: nat -> bool,        // whether the GET of the result is answered
    networks: nat -> Network,  // the attempts of ack_existing
    discards: nat -> Attempt   // the one attempt of the discarding XACK
  )

  /** The sweep's progress: the broker, the entries it re-runs, and its `reclaimed` counter. */
  datatype Progress = Progress(broker: Broker, rerun: seq<nat>, reclaimed: nat)

  predicate HasResult(b: Broker, request: Request) {
    request.jobId in b.results
  }

  /** One entry: garbled ones are acked away, finished ones re-acked, and the others re-run. */
  function SweepOne(p: Progress, msg: nat, i: nat, env: Env): Progress
    requires msg < |p.broker.stream|
  {
    match p.broker.stream[msg]
    case Garbled =>
      var cmds := Commands(Discard(msg));
      p.(broker := Sent(p.broker, cmds, env.discards(i)))
    case Job(request) =>
      if env.heard(i) && HasResult(p.broker, request) then
        var cmds := Commands(Reack(msg, request.jobId));
        p.(broker := Replay(p.broker, cmds, env.networks(i), AttemptsFrom(env.networks(i), 1)),
           reclaimed := p.reclaimed + 1)
      else p.(rerun := p.rerun + [msg], reclaimed := p.reclaimed + 1)
  }

  /** XAUTOCLAIM returns entries of the stream. */
  predicate Known(b: Broker, messages: seq<nat>) {
    forall i | 0 <= i < |messages| :: messages[i] < |b.stream|
  }

  /** The sweep of the first n entries of a batch. */
  function SweepFirst(b: Broker, messages: seq<nat>, n: nat, env: Env): (p: Progress)
    requires n <= |messages| && Known(b, messages)
    ensures p.broker.stream == b.stream && p.broker.results == b.results
    decreases n
  {
    if n == 0 then Progress(b, [], 0)
    else
      var p := SweepFirst(b, messages, n - 1, env);
      SweepKeepsStream(p, messages[n - 1], n - 1, env);
      SweepOne(p, messages[n - 1], n - 1, env)
  }

  /** Neither re-acking nor discarding touches the stream or a stored result. */
  predicate Harmless(cmds: seq<Command>) {
    forall cmd | cmd in cmds :: cmd.DelMarker? || cmd.XAck? || cmd.Publish?
  }

  lemma {:induction false} HarmlessKeeps(b: Broker, cmds: seq<Command>)
    requires Harmless(cmds)
    ensures ApplyAll(b, cmds).stream == b.stream && ApplyAll(b, cmds).results == b.results
    ensures ApplyAll(b, cmds).pel <= b.pel
    decreases |cmds|
  {
    if cmds != [] {
      assert cmds[0] in cmds;
      HarmlessKeeps(Apply(b, cmds[0]), cmds[1..]);
    }
  }

  lemma {:induction false} HarmlessReplay(b: Broker, cmds: seq<Command>, network: Network, n: nat)
    requires Harmless(cmds)
    ensures Replay(b, cmds, network, n).stream == b.stream && Replay(b, cmds, network, n).results == b.results
    ensures Replay(b, cmds, network, n).pel <= b.pel
    decreases n
  {
    if n > 0 {
      HarmlessReplay(b, cmds, network, n - 1);
      HarmlessKeeps(Replay(b, cmds, network, n - 1), cmds[..Executed(network(n - 1), cmds)]);
    }
  }

  lemma SweepKeepsStream(p: Progress, msg: nat, i: nat, env: Env)
    requires msg < |p.broker.stream|
    ensures var p' := SweepOne(p, msg, i, env);
            && p'.broker.stream == p.broker.stream && p'.broker.results == p.broker.results
            && p'.broker.pel <= p.broker.pel
  {
    match p.broker.stream[msg]
    case Garbled =>
      var cmds := Commands(Discard(msg));
      HarmlessKeeps(p.broker, cmds[..Executed(env.discards(i), cmds)]);
    case Job(request) =>
      HarmlessReplay(p.broker, Commands(Reack(msg, request.jobId)), env.networks(i), AttemptsFrom(env.networks(i), 1));
  }

  /** run_reclaim's loop over the entries one XAUTOCLAIM returned. */
  method SweepBatch(connection: Connection, messages: seq<nat>, env: Env) returns (rerun: seq<nat>, reclaimed: nat)
    requires Known(connection.broker, messages)
    modifies connection
    ensures Progress(connection.broker, rerun, reclaimed)
         == SweepFirst(old(connection.broker), messages, |messages|, env)
  {
    rerun, reclaimed := [], 0;
    for i := 0 to |messages|
      invariant Progress(connection.broker, rerun, reclaimed) == SweepFirst(old(connection.broker), messages, i, env)
    {
      var msg := messages[i];
      match connection.broker.stream[msg]
      case Garbled =>
        var _ := connection.SendPipe(Commands(Discard(msg)), env.discards(i));
      case Job(request) =>
        if env.heard(i) && HasResult(connection.broker, request) {
          var _, _, _ := connection.RunPipeWithRetry(Commands(Reack(msg, request.jobId)), env.networks(i));
        } else {
          rerun := rerun + [msg];
        }
        reclaimed := reclaimed + 1;
    }
  }

  lemma {:induction false} AttemptsBound(network: Network, n: nat)
    requires 1 <= n <= MAX_ATTEMPTS
    ensures n <= AttemptsFrom(network, n) <= MAX_ATTEMPTS
    decreases MAX_ATTEMPTS - n
  {
    if n < MAX_ATTEMPTS && !network(n - 1).Answered? {
      AttemptsBound(network, n + 1);
    }
  }

  predicate Reliable(env: Env, i: nat) {
    env.discards(i).Answered? &&
    (AttemptsBound(env.networks(i), 1); env.networks(i)(AttemptsFrom(env.networks(i), 1) - 1).Answered?)
  }

  lemma DiscardDrains(b: Broker, msg: nat)
    ensures msg !in ApplyAll(b, Commands(Discard(msg))).pel
  {
  }

  /** An entry whose pipe is answered leaves the pending list; the others are re-run. */
  lemma OneDrains(p: Progress, msg: nat, i: nat, env: Env)
    requires msg < |p.broker.stream| && Reliable(env, i)
    ensures var p' := SweepOne(p, msg, i, env);
            msg in p'.broker.pel ==> p'.rerun == p.rerun + [msg] && p.broker.stream[msg].Job?
  {
    match p.broker.stream[msg]
    case Garbled =>
      DiscardDrains(p.broker, msg);
      assert Commands(Discard(msg))[..1] == Commands(Discard(msg));
    case Job(request) =>
      AttemptsBound(env.networks(i), 1);
      AnsweredReplayIsComplete(p.broker, Reack(msg, request.jobId), env.networks(i), AttemptsFrom(env.networks(i), 1));
  }

  /** If each of its pipes is answered in the end, a batch leaves on the pending list only entries that
      it re-runs. */
  lemma {:induction false} BatchDrains(b: Broker, messages: seq<nat>, n: nat, env: Env, m: nat)
    requires n <= |messages| && Known(b, messages) && m in messages[..n]
    requires forall i | 0 <= i < n :: Reliable(env, i)
    ensures var p := SweepFirst(b, messages, n, env); m in p.broker.pel ==> m in p.rerun
  {
    var p := SweepFirst(b, messages, n - 1, env);
    SweepKeepsStream(p, messages[n - 1], n - 1, env);
    OneDrains(p, messages[n - 1], n - 1, env);
    if m != messages[n - 1] {
      assert messages[..n] == messages[..n - 1] + [messages[n - 1]];
      BatchDrains(b, messages, n - 1, env, m);
    }
  }

  /** The payload parses and its GET saw no result. */
  predicate Unseen(b: Broker, messages: seq<nat>, i: nat, env: Env)
    requires i < |messages| && Known(b, messages)
  {
    var entry := b.stream[messages[i]];
    entry.Job? && !(env.heard(i) && HasResult(b, entry.request))
  }

  function Unfinished(b: Broker, messages: seq<nat>, n: nat, env: Env): seq<nat>
    requires n <= |messages| && Known(b, messages)
    decreases n
  {
    if n == 0 then []
    else
      Unfinished(b, messages, n - 1, env) + (if Unseen(b, messages, n - 1, env) then [messages[n - 1]] else [])
  }

  lemma RerunStep(p: Progress, b: Broker, messages: seq<nat>, i: nat, env: Env)
    requires i < |messages| && Known(b, messages) && p.broker.stream == b.stream && p.broker.results == b.results
    ensures SweepOne(p, messages[i], i, env).rerun
         == p.rerun + if Unseen(b, messages, i, env) then [messages[i]] else []
    ensures SweepOne(p, messages[i], i, env).reclaimed == p.reclaimed + if b.stream[messages[i]].Job? then 1 else 0
  {
  }

  /** The entries of the batch that hold a job. */
  function Jobs(b: Broker, messages: seq<nat>, n: nat): nat
    requires n <= |messages| && Known(b, messages)
  {
    if n == 0 then 0 else Jobs(b, messages, n - 1) + if b.stream[messages[n - 1]].Job? then 1 else 0
  }

  /** A batch re-runs exactly the positions whose payload parses and whose GET saw no result, in order, and
      counts all that parse as reclaimed. */
  lemma {:induction false} BatchReruns(b: Broker, messages: seq<nat>, n: nat, env: Env)
    requires n <= |messages| && Known(b, messages)
    ensures SweepFirst(b, messages, n, env).rerun == Unfinished(b, messages, n, env)
    ensures SweepFirst(b, messages, n, env).reclaimed == Jobs(b, messages, n)
  {
    if n > 0 {
      BatchReruns(b, messages, n - 1, env);
      RerunStep(SweepFirst(b, messages, n - 1, env), b, messages, n - 1, env);
    }
  }

  // ----- a batch is a run of the protocol -----

  /** The sweep decides about an entry as the protocol's Inspect step does. */
  lemma SweepDecidesAsProtocol(p: Progress, msg: nat, i: nat, env: Env)
    requires msg < |p.broker.stream|
    ensures var task := Cluster.AfterInspect(p.broker, msg, env.heard(i));
            var p' := SweepOne(p, msg, i, env);
            && (task.Running? <==> p'.rerun == p.rerun + [msg])
            && (task.Running? ==> p'.broker == p.broker)
            && (task.Flight? && task.pipe.Discard? <==> p'.reclaimed == p.reclaimed)
            && (task.Flight? && task.pipe.Reack? ==>
                  p'.broker == Replay(p.broker, Commands(task.pipe), env.networks(i), AttemptsFrom(env.networks(i), 1)))
            && (task.Flight? && task.pipe.Discard? ==>
                  p'.broker == Sent(p.broker, Commands(task.pipe), env.discards(i)))
  {
  }

  /** Only tasks of the sweep act, and no unsent command stays behind. */
  function BySweep(ids: seq<nat>): (Cluster.State, Cluster.Event) -> bool {
    (s: Cluster.State, e: Cluster.Event) =>
      match e
      case Autoclaim(t, _) => t in ids
      case Inspect(t, _) => t in ids
      case Exec(t, _) => t in ids
      case Break(t, stray) => t in ids && stray.None?
      case Vanish(t) => t in ids
      case _ => false
  }

  /** The broker executes the first n commands of the pipe. */
  lemma {:induction false} SendIsProtocol(ids: seq<nat>, s0: Cluster.State, ss: seq<Cluster.State>,
        es: seq<Cluster.Event>, t: nat, pipe: Pipe, n: nat)
    returns (ss': seq<Cluster.State>, es': seq<Cluster.Event>)
    requires FromWorker(pipe) && n <= |Commands(pipe)| && t in ids && Cluster.Path(BySweep(ids), s0, ss, es)
    requires t in ss[|es|].tasks && ss[|es|].tasks[t] == Cluster.Flight(pipe, 0)
    ensures Cluster.Path(BySweep(ids), s0, ss', es')
    ensures ss'[|es'|] == ss[|es|].(broker := ApplyAll(ss[|es|].broker, Commands(pipe)[..n]),
                                    tasks := ss[|es|].tasks[t := Cluster.Flight(pipe, n)])
  {
    ss', es' := ss, es;
    if n > 0 {
      ss', es' := SendIsProtocol(ids, s0, ss, es, t, pipe, n - 1);
      var cmds := Commands(pipe);
      assert cmds[..n] == cmds[..n - 1] + [cmds[n - 1]];
      ApplyAllConcat(ss[|es|].broker, cmds[..n - 1], [cmds[n - 1]]);
      assert ApplyAll(ss'[|es'|].broker, [cmds[n - 1]]) == Apply(ss'[|es'|].broker, cmds[n - 1]);
      ss', es' := Cluster.Walk(BySweep(ids), s0, ss', es', Cluster.Exec(t, true));
    }
  }

  /** The first n attempts of run_pipe_with_retry, all of which fail. */
  lemma {:induction false} RetriesAreProtocol(ids: seq<nat>, s0: Cluster.State, ss: seq<Cluster.State>,
        es: seq<Cluster.Event>, t: nat, pipe: Pipe, network: Network, n: nat)
    returns (ss': seq<Cluster.State>, es': seq<Cluster.Event>)
    requires pipe.Reack? && t in ids && Cluster.Path(BySweep(ids), s0, ss, es)
    requires t in ss[|es|].tasks && ss[|es|].tasks[t] == Cluster.Flight(pipe, 0)
    requires forall i | 0 <= i < n :: network(i).Broken?
    ensures Cluster.Path(BySweep(ids), s0, ss', es')
    ensures ss'[|es'|] == ss[|es|].(broker := Replay(ss[|es|].broker, Commands(pipe), network, n))
  {
    ss', es' := ss, es;
    if n > 0 {
      ss', es' := RetriesAreProtocol(ids, s0, ss, es, t, pipe, network, n - 1);
      var executed := Executed(network(n - 1), Commands(pipe));
      ss', es' := SendIsProtocol(ids, s0, ss', es', t, pipe, executed);
      ss', es' := Cluster.Walk(BySweep(ids), s0, ss', es', Cluster.Break(t, None));
      assert ss'[|es'|].tasks == ss[|es|].tasks;
    }
  }

  lemma {:induction false} OnlyTheLastIsAnswered(network: Network, from: nat, i: nat)
    requires 1 <= from <= MAX_ATTEMPTS && from - 1 <= i < AttemptsFrom(network, from) - 1
    ensures network(i).Broken?
    decreases MAX_ATTEMPTS - from
  {
    if i > from - 1 {
      OnlyTheLastIsAnswered(network, from + 1, i);
    }
  }

  /** ack_existing as a whole: after its last attempt the task is gone, whether it was answered or not. */
  lemma ReackIsProtocol(ids: seq<nat>, s0: Cluster.State, ss: seq<Cluster.State>, es: seq<Cluster.Event>, t: nat,
        pipe: Pipe, network: Network)
    returns (ss': seq<Cluster.State>, es': seq<Cluster.Event>)
    requires pipe.Reack? && t in ids && Cluster.Path(BySweep(ids), s0, ss, es)
    requires t in ss[|es|].tasks && ss[|es|].tasks[t] == Cluster.Flight(pipe, 0)
    ensures Cluster.Path(BySweep(ids), s0, ss', es')
    ensures ss'[|es'|] == ss[|es|].(tasks := ss[|es|].tasks - {t},
              broker := Replay(ss[|es|].broker, Commands(pipe), network, AttemptsFrom(network, 1)))
  {
    AttemptsBound(network, 1);
    var n := AttemptsFrom(network, 1);
    forall i | 0 <= i < n - 1 ensures network(i).Broken? {
      OnlyTheLastIsAnswered(network, 1, i);
    }
    ss', es' := RetriesAreProtocol(ids, s0, ss, es, t, pipe, network, n - 1);
    ss', es' := SendIsProtocol(ids, s0, ss', es', t, pipe, Executed(network(n - 1), Commands(pipe)));
    ss', es' := Cluster.Walk(BySweep(ids), s0, ss', es', Cluster.Vanish(t));
    assert ss'[|es'|].tasks == ss[|es|].tasks - {t};
  }

  lemma DiscardIsProtocol(ids: seq<nat>, s0: Cluster.State, ss: seq<Cluster.State>, es: seq<Cluster.Event>, t: nat,
        pipe: Pipe, attempt: Attempt)
    returns (ss': seq<Cluster.State>, es': seq<Cluster.Event>)
    requires pipe.Discard? && t in ids && Cluster.Path(BySweep(ids), s0, ss, es)
    requires t in ss[|es|].tasks && ss[|es|].tasks[t] == Cluster.Flight(pipe, 0)
    ensures Cluster.Path(BySweep(ids), s0, ss', es')
    ensures ss'[|es'|] == ss[|es|].(tasks := ss[|es|].tasks - {t},
              broker := Sent(ss[|es|].broker, Commands(pipe), attempt))
  {
    ss', es' := SendIsProtocol(ids, s0, ss, es, t, pipe, Executed(attempt, Commands(pipe)));
    ss', es' := Cluster.Walk(BySweep(ids), s0, ss', es', Cluster.Vanish(t));
    assert ss'[|es'|].tasks == ss[|es|].tasks - {t};
  }

  /** One entry of the batch: its task runs the job, or is gone with its entry off the list. */
  lemma OneIsProtocol(ids: seq<nat>, s0: Cluster.State, ss: seq<Cluster.State>, es: seq<Cluster.Event>, t: nat,
        p: Progress, msg: nat, i: nat, env: Env)
    returns (ss': seq<Cluster.State>, es': seq<Cluster.Event>)
    requires t in ids && Cluster.Path(BySweep(ids), s0, ss, es) && msg < |p.broker.stream|
    requires t in ss[|es|].tasks && ss[|es|].tasks[t] == Cluster.Swept(msg) && ss[|es|].broker == p.broker
    ensures Cluster.Path(BySweep(ids), s0, ss', es')
    ensures var task := Cluster.AfterInspect(p.broker, msg, env.heard(i));
            ss'[|es'|] == ss[|es|].(broker := SweepOne(p, msg, i, env).broker,
                                    tasks := if task.Running? then ss[|es|].tasks[t := task] else ss[|es|].tasks - {t})
  {
    SweepDecidesAsProtocol(p, msg, i, env);
    var task := Cluster.AfterInspect(p.broker, msg, env.heard(i));
    ss', es' := Cluster.Walk(BySweep(ids), s0, ss, es, Cluster.Inspect(t, env.heard(i)));
    if task.Flight? && task.pipe.Reack? {
      ss', es' := ReackIsProtocol(ids, s0, ss', es', t, task.pipe, env.networks(i));
      assert ss'[|es'|].tasks == ss[|es|].tasks - {t};
    } else if task.Flight? && task.pipe.Discard? {
      ss', es' := DiscardIsProtocol(ids, s0, ss', es', t, task.pipe, env.discards(i));
      assert ss'[|es'|].tasks == ss[|es|].tasks - {t};
    }
  }

  predicate Fresh(s: Cluster.State, ids: seq<nat>) {
    (forall i | 0 <= i < |ids| :: ids[i] !in s.tasks) && forall i, j | 0 <= i < j < |ids| :: ids[i] != ids[j]
  }

  /** How the i-th entry of the batch stands: just claimed, running its job, or gone. */
  predicate Stands(tasks: map<nat, Cluster.Task>, b: Broker, ids: seq<nat>, messages: seq<nat>, i: nat, seen: bool,
      env: Env)
    requires i < |messages| == |ids| && Known(b, messages)
  {
    if !seen then ids[i] in tasks && tasks[ids[i]] == Cluster.Swept(messages[i])
    else if Unseen(b, messages, i, env) then
      ids[i] in tasks && tasks[ids[i]] == Cluster.Running(messages[i], b.stream[messages[i]].request)
    else ids[i] !in tasks
  }

  /** The first k entries of the batch are worked on or gone, the others up to n were just claimed, and
      the tasks of others are as in s. */
  ghost predicate Batch(s: Cluster.State, tasks: map<nat, Cluster.Task>, ids: seq<nat>, messages: seq<nat>, n: nat,
      k: nat, env: Env)
    requires k <= n <= |messages| == |ids| && Known(s.broker, messages)
  {
    && (forall t | t in tasks :: t in s.tasks || t in ids[..n])
    && (forall t | t in s.tasks :: t in tasks && tasks[t] == s.tasks[t])
    && (forall i | 0 <= i < k :: Stands(tasks, s.broker, ids, messages, i, true, env))
    && (forall i | k <= i < n :: Stands(tasks, s.broker, ids, messages, i, false, env))
  }

  lemma BatchClaims(s: Cluster.State, tasks: map<nat, Cluster.Task>, ids: seq<nat>, messages: seq<nat>, n: nat,
        env: Env)
    requires n < |messages| == |ids| && Known(s.broker, messages) && Fresh(s, ids)
    requires Batch(s, tasks, ids, messages, n, 0, env)
    ensures ids[n] !in tasks
    ensures Batch(s, tasks[ids[n] := Cluster.Swept(messages[n])], ids, messages, n + 1, 0, env)
  {
    assert ids[..n + 1] == ids[..n] + [ids[n]];
    var tasks' := tasks[ids[n] := Cluster.Swept(messages[n])];
    forall i | 0 <= i < n ensures Stands(tasks', s.broker, ids, messages, i, false, env) {
      assert Stands(tasks, s.broker, ids, messages, i, false, env);
    }
  }

  lemma BatchGoesOn(s: Cluster.State, tasks: map<nat, Cluster.Task>, tasks': map<nat, Cluster.Task>, ids: seq<nat>,
        messages: seq<nat>, k: nat, env: Env)
    requires k < |messages| == |ids| && Known(s.broker, messages) && Fresh(s, ids)
    requires Batch(s, tasks, ids, messages, |messages|, k, env)
    requires tasks' - {ids[k]} == tasks - {ids[k]} && Stands(tasks', s.broker, ids, messages, k, true, env)
    ensures Batch(s, tasks', ids, messages, |messages|, k + 1, env)
  {
    forall t | t != ids[k] ensures t in tasks' <==> t in tasks
                          ensures t in tasks ==> tasks'[t] == tasks[t] {
      assert t in tasks' - {ids[k]} <==> t in tasks - {ids[k]};
    }
    forall i | 0 <= i < k ensures Stands(tasks', s.broker, ids, messages, i, true, env) {
      assert Stands(tasks, s.broker, ids, messages, i, true, env);
    }
    forall i | k < i < |messages| ensures Stands(tasks', s.broker, ids, messages, i, false, env) {
      assert Stands(tasks, s.broker, ids, messages, i, false, env);
    }
  }

  /** XAUTOCLAIM hands out the batch. */
  lemma {:induction false} ClaimsAreProtocol(s: Cluster.State, ids: seq<nat>, messages: seq<nat>, n: nat, env: Env)
    returns (ss: seq<Cluster.State>, es: seq<Cluster.Event>)
    requires n <= |messages| == |ids| && Known(s.broker, messages) && Fresh(s, ids)
    requires forall i | 0 <= i < |messages| :: messages[i] in s.broker.pel && s.broker.floor <= messages[i]
    ensures Cluster.Path(BySweep(ids), s, ss, es)
    ensures ss[|es|] == s.(tasks := ss[|es|].tasks) && Batch(s, ss[|es|].tasks, ids, messages, n, 0, env)
  {
    if n == 0 {
      ss, es := [s], [];
    } else {
      ss, es := ClaimsAreProtocol(s, ids, messages, n - 1, env);
      BatchClaims(s, ss[|es|].tasks, ids, messages, n - 1, env);
      ss, es := Cluster.Walk(BySweep(ids), s, ss, es, Cluster.Autoclaim(ids[n - 1], messages[n - 1]));
    }
  }

  /** One entry more. */
  lemma NextIsProtocol(s: Cluster.State, ss: seq<Cluster.State>, es: seq<Cluster.Event>, ids: seq<nat>,
        messages: seq<nat>, k: nat, p: Progress, env: Env)
    returns (ss': seq<Cluster.State>, es': seq<Cluster.Event>)
    requires k < |messages| == |ids| && Known(s.broker, messages) && Fresh(s, ids)
    requires Cluster.Path(BySweep(ids), s, ss, es) && Batch(s, ss[|es|].tasks, ids, messages, |messages|, k, env)
    requires ss[|es|].broker == p.broker
    requires p.broker.stream == s.broker.stream && p.broker.results == s.broker.results
    ensures Cluster.Path(BySweep(ids), s, ss', es')
    ensures Batch(s, ss'[|es'|].tasks, ids, messages, |messages|, k + 1, env)
    ensures ss'[|es'|].ran == ss[|es|].ran && ss'[|es'|].broker == SweepOne(p, messages[k], k, env).broker
  {
    var tasks := ss[|es|].tasks;
    assert Stands(tasks, s.broker, ids, messages, k, false, env);
    ss', es' := OneIsProtocol(ids, s, ss, es, ids[k], p, messages[k], k, env);
    BatchGoesOn(s, tasks, ss'[|es'|].tasks, ids, messages, k, env);
  }

  /** The first k entries of the batch. */
  lemma {:induction false} FirstAreProtocol(s: Cluster.State, ids: seq<nat>, messages: seq<nat>, k: nat, env: Env)
    returns (ss: seq<Cluster.State>, es: seq<Cluster.Event>)
    requires k <= |messages| == |ids| && Known(s.broker, messages) && Fresh(s, ids)
    requires forall i | 0 <= i < |messages| :: messages[i] in s.broker.pel && s.broker.floor <= messages[i]
    ensures Cluster.Path(BySweep(ids), s, ss, es) && Batch(s, ss[|es|].tasks, ids, messages, |messages|, k, env)
    ensures ss[|es|].ran == s.ran && ss[|es|].broker == SweepFirst(s.broker, messages, k, env).broker
  {
    if k == 0 {
      ss, es := ClaimsAreProtocol(s, ids, messages, |messages|, env);
    } else {
      ss, es := FirstAreProtocol(s, ids, messages, k - 1, env);
      ss, es := NextIsProtocol(s, ss, es, ids, messages, k - 1, SweepFirst(s.broker, messages, k - 1, env), env);
    }
  }

  /** A batch that no one disturbs is a run of the protocol's sweep tasks: the broker it leaves is the
      protocol's, and the tasks that go on to run a job are exactly those of the entries re-run. */
  lemma BatchIsProtocol(s: Cluster.State, ids: seq<nat>, messages: seq<nat>, env: Env)
    requires |messages| == |ids| && Known(s.broker, messages) && Fresh(s, ids)
    requires forall i | 0 <= i < |messages| :: messages[i] in s.broker.pel && s.broker.floor <= messages[i]
    ensures exists ss: seq<Cluster.State>, es: seq<Cluster.Event> ::
              Cluster.Path(BySweep(ids), s, ss, es) && ss[|es|].ran == s.ran
              && Batch(s, ss[|es|].tasks, ids, messages, |messages|, |messages|, env)
              && ss[|es|].broker == SweepFirst(s.broker, messages, |messages|, env).broker
  {
    var ss, es := FirstAreProtocol(s, ids, messages, |messages|, env);
  }
}
