/**
 Sending a pipe with retries, run_pipe_with_retry in src/queue/redis.rs, and why retries do no harm:
 whatever prefixes the failed attempts execute, one complete attempt absorbs them.
 */
module Publisher {
  import opened Prelude
  import opened Redis

  /** What becomes of one attempt to send a pipe: it is answered, or the connection breaks after the
      broker executed some of its commands. */
  datatype Attempt = Answered | Broken(executed: nat)

  type Network = nat -> Attempt

  const MAX_ATTEMPTS: nat := 12

  function Executed(attempt: Attempt, cmds: seq<Command>): (n: nat)
    ensures n <= |cmds|
  {
    if attempt.Answered? then |cmds| else Min(attempt.executed, |cmds|)
  }

  /** The broker after one attempt to send `cmds`. */
  function Sent(b: Broker, cmds: seq<Command>, attempt: Attempt): Broker {
    ApplyAll(b, cmds[..Executed(attempt, cmds)])
  }

  /** The broker after the first n attempts to send `cmds`. */
  function Replay(b: Broker, cmds: seq<Command>, network: Network, n: nat): Broker
    decreases n
  {
    if n == 0 then b
    else Sent(Replay(b, cmds, network, n - 1), cmds, network(n - 1))
  }

  /** The number of attempts made when the first n - 1 failed. */
  function AttemptsFrom(network: Network, n: nat): nat
    requires 1 <= n <= MAX_ATTEMPTS
    decreases MAX_ATTEMPTS - n
  {
    if n == MAX_ATTEMPTS || network(n - 1).Answered? then n else AttemptsFrom(network, n + 1)
  }

  /** The pause after failed attempt number n, counted from 1. */
  function BackoffMs(n: nat): nat {
    Min(2000, 200 * n)
  }

  function TotalBackoffMs(n: nat): nat {
    if n == 0 then 0 else TotalBackoffMs(n - 1) + BackoffMs(n)
  }

  lemma {:induction false} TotalBackoffGrows(m: nat, n: nat)
    requires m <= n
    ensures TotalBackoffMs(m) <= TotalBackoffMs(n)
  {
    if m < n {
      TotalBackoffGrows(m, n - 1);
    }
  }

  lemma NextTriangle(n: nat)
    requires n > 0
    ensures n * (n + 1) == (n - 1) * n + 2 * n
  {
  }

  /** The pause after a failed attempt is 200 ms longer than the one before, up to two seconds: the first
      n pauses take 0.1 n (n + 1) seconds, up to the tenth, and each later one two seconds more. */
  lemma {:induction false} BackoffIs(n: nat)
    ensures n <= 10 ==> TotalBackoffMs(n) == 100 * (n * (n + 1))
    ensures n >= 10 ==> TotalBackoffMs(n) == 11_000 + 2000 * (n - 10)
  {
    if n > 0 {
      BackoffIs(n - 1);
      NextTriangle(n);
    }
  }

  /** All eleven pauses together take 13 seconds. */
  lemma MaximalBackoff()
    ensures TotalBackoffMs(MAX_ATTEMPTS - 1) == 13_000
  {
    BackoffIs(11);
  }

  lemma {:induction false} AttemptsAre(network: Network, from: nat, attempts: nat)
    requires 1 <= from <= attempts <= MAX_ATTEMPTS
    requires forall i | from - 1 <= i < attempts - 1 :: network(i).Broken?
    requires network(attempts - 1).Answered? || attempts == MAX_ATTEMPTS
    ensures AttemptsFrom(network, from) == attempts
    decreases attempts - from
  {
    if from < attempts {
      AttemptsAre(network, from + 1, attempts);
    }
  }

  lemma BackoffBound(n: nat)
    requires n < MAX_ATTEMPTS
    ensures TotalBackoffMs(n) <= 13_000
  {
    TotalBackoffGrows(n, MAX_ATTEMPTS - 1);
    MaximalBackoff();
  }

  /** The broker as the clients of one process reach it. */
  class Connection {
    var broker: Broker

    constructor (broker: Broker)
      ensures this.broker == broker
    {
      this.broker := broker;
    }

    method SendPipe(cmds: seq<Command>, attempt: Attempt) returns (ok: bool)
      modifies this
      ensures ok == attempt.Answered?
      ensures broker == Sent(old(broker), cmds, attempt)
    {
      ok := attempt.Answered?;
      broker := Sent(broker, cmds, attempt);
    }

    /** run_pipe_with_retry: the whole pipe, again from its first command, until an attempt is
        answered or twelve have failed. */
    method RunPipeWithRetry(cmds: seq<Command>, network: Network) returns (ok: bool, attempts: nat, backoffMs: nat)
      modifies this
      ensures 1 <= attempts <= MAX_ATTEMPTS
      ensures forall i | 0 <= i < attempts - 1 :: network(i).Broken?
      ensures ok <==> network(attempts - 1).Answered?
      ensures !ok ==> attempts == MAX_ATTEMPTS
      ensures backoffMs == TotalBackoffMs(attempts - 1) <= 13_000
      ensures attempts == AttemptsFrom(network, 1)
      ensures broker == Replay(old(broker), cmds, network, attempts)
    {
      attempts, backoffMs := 1, 0;
      ok := SendPipe(cmds, network(0));
      while !ok && attempts < MAX_ATTEMPTS
        invariant 1 <= attempts <= MAX_ATTEMPTS
        invariant forall i | 0 <= i < attempts - 1 :: network(i).Broken?
        invariant ok <==> network(attempts - 1).Answered?
        invariant backoffMs == TotalBackoffMs(attempts - 1)
        invariant broker == Replay(old(broker), cmds, network, attempts)
        decreases MAX_ATTEMPTS - attempts
      {
        backoffMs := backoffMs + BackoffMs(attempts);
        attempts := attempts + 1;
        ok := SendPipe(cmds, network(attempts - 1));
      }
      BackoffBound(attempts - 1);
      AttemptsAre(network, 1, attempts);
    }
  }

  // ----- retries are absorbed -----

  /** What one job's report touches: its result, its marker, and its entry in the group. */
  datatype View = View(result: Option<JobResult>, marker: bool, unacked: bool, acked: bool)

  function ViewOf(b: Broker, id: JobId, msg: nat): View {
    View(if id in b.results then Some(b.results[id]) else None, id in b.markers, msg in b.pel, msg in b.acked)
  }

  /** A command of somebody else about other ids and other entries. */
  predicate Foreign(cmd: Command, id: JobId, msg: nat) {
    match cmd
    case SetResult(i, _) => i != id
    case DelResult(i) => i != id
    case SetMarkerNX(i) => i != id
    case DelMarker(i) => i != id
    case XAck(m) => m != msg
    case XAdd(_) => true
    case Publish(i) => i != id
  }

  /** The commands of `trace` that are about this id or entry. */
  function Own(trace: seq<Command>, id: JobId, msg: nat): seq<Command> {
    if trace == [] then []
    else if Foreign(trace[0], id, msg) then Own(trace[1..], id, msg)
    else [trace[0]] + Own(trace[1..], id, msg)
  }

  function Flatten(parts: seq<seq<Command>>): seq<Command> {
    if parts == [] then [] else parts[0] + Flatten(parts[1..])
  }

  function PipeId(pipe: Pipe): JobId
    requires pipe.Report? || pipe.Reack?
  {
    if pipe.Report? then pipe.result.jobId else pipe.id
  }

  /** What a view becomes when the pipe is executed once and completely. */
  function AfterPipe(v: View, pipe: Pipe): View
    requires pipe.Report? || pipe.Reack?
  {
    View(if pipe.Report? then Some(pipe.result) else v.result, false, false, v.acked || v.unacked)
  }

  lemma {:induction false} ApplyAllConcat(b: Broker, xs: seq<Command>, ys: seq<Command>)
    ensures ApplyAll(b, xs + ys) == ApplyAll(ApplyAll(b, xs), ys)
    decreases |xs|
  {
    if xs == [] {
      assert xs + ys == ys;
    } else {
      assert (xs + ys)[0] == xs[0] && (xs + ys)[1..] == xs[1..] + ys;
      ApplyAllConcat(Apply(b, xs[0]), xs[1..], ys);
    }
  }

  /** Foreign commands between the own ones change nothing of the view, and see nothing of it. */
  lemma {:induction false} ForeignIsInvisible(b: Broker, c: Broker, trace: seq<Command>, id: JobId, msg: nat)
    requires ViewOf(b, id, msg) == ViewOf(c, id, msg)
    ensures ViewOf(ApplyAll(b, trace), id, msg) == ViewOf(ApplyAll(c, Own(trace, id, msg)), id, msg)
    decreases |trace|
  {
    if trace != [] {
      var own := Own(trace, id, msg);
      if Foreign(trace[0], id, msg) {
        ForeignIsInvisible(Apply(b, trace[0]), c, trace[1..], id, msg);
      } else {
        assert own[0] == trace[0] && own[1..] == Own(trace[1..], id, msg);
        ForeignIsInvisible(Apply(b, trace[0]), Apply(c, trace[0]), trace[1..], id, msg);
      }
    }
  }

  /** The view after a prefix: what of the pipe's effect has happened so far. */
  lemma {:induction false} PrefixView(b: Broker, pipe: Pipe, done: nat)
    requires (pipe.Report? || pipe.Reack?) && done <= |Commands(pipe)|
    ensures var k := if pipe.Report? then done else done + 1;
            var v := ViewOf(b, PipeId(pipe), pipe.msg);
            var v' := ViewOf(ApplyAll(b, Commands(pipe)[..done]), PipeId(pipe), pipe.msg);
            v' == View(if pipe.Report? && 1 <= done then Some(pipe.result) else v.result,
                       if 2 <= k then false else v.marker,
                       if 3 <= k then false else v.unacked,
                       v.acked || (3 <= k && v.unacked))
  {
    var cmds := Commands(pipe);
    if done > 0 {
      PrefixView(b, pipe, done - 1);
      var b' := ApplyAll(b, cmds[..done - 1]);
      assert cmds[..done] == cmds[..done - 1] + [cmds[done - 1]];
      ApplyAllConcat(b, cmds[..done - 1], [cmds[done - 1]]);
      assert ApplyAll(b', [cmds[done - 1]]) == Apply(b', cmds[done - 1]);
    }
  }

  /** A prefix of the pipe does not change what the complete pipe leads to. */
  lemma PrefixIsAbsorbed(b: Broker, pipe: Pipe, done: nat)
    requires (pipe.Report? || pipe.Reack?) && done <= |Commands(pipe)|
    ensures var b' := ApplyAll(b, Commands(pipe)[..done]);
            AfterPipe(ViewOf(b', PipeId(pipe), pipe.msg), pipe) == AfterPipe(ViewOf(b, PipeId(pipe), pipe.msg), pipe)
    ensures done == |Commands(pipe)| ==>
              var v := ViewOf(b, PipeId(pipe), pipe.msg);
              ViewOf(ApplyAll(b, Commands(pipe)), PipeId(pipe), pipe.msg) == AfterPipe(v, pipe)
  {
    assert Commands(pipe)[..|Commands(pipe)|] == Commands(pipe);
    PrefixView(b, pipe, done);
    PrefixView(b, pipe, |Commands(pipe)|);
  }

  lemma {:induction false} PrefixesAreAbsorbed(b: Broker, pipe: Pipe, failed: seq<seq<Command>>)
    requires pipe.Report? || pipe.Reack?
    requires forall i | 0 <= i < |failed| :: failed[i] <= Commands(pipe)
    ensures ViewOf(ApplyAll(b, Flatten(failed) + Commands(pipe)), PipeId(pipe), pipe.msg)
         == AfterPipe(ViewOf(b, PipeId(pipe), pipe.msg), pipe)
    decreases |failed|
  {
    if failed == [] {
      assert Flatten(failed) + Commands(pipe) == Commands(pipe);
      PrefixIsAbsorbed(b, pipe, |Commands(pipe)|);
    } else {
      var b' := ApplyAll(b, failed[0]);
      assert Flatten(failed) + Commands(pipe) == failed[0] + (Flatten(failed[1..]) + Commands(pipe));
      ApplyAllConcat(b, failed[0], Flatten(failed[1..]) + Commands(pipe));
      PrefixesAreAbsorbed(b', pipe, failed[1..]);
      assert failed[0] == Commands(pipe)[..|failed[0]|];
      PrefixIsAbsorbed(b, pipe, |failed[0]|);
    }
  }

  /** Retry absorption: any number of failed attempts, each executing some prefix of the pipe, and then
      one complete attempt, with commands about other ids and entries in between at will, leave the
      job's result, marker and entry exactly as one complete attempt alone. */
  lemma RetriesAreAbsorbed(b: Broker, pipe: Pipe, failed: seq<seq<Command>>, trace: seq<Command>)
    requires pipe.Report? || pipe.Reack?
    requires forall i | 0 <= i < |failed| :: failed[i] <= Commands(pipe)
    requires Own(trace, PipeId(pipe), pipe.msg) == Flatten(failed) + Commands(pipe)
    ensures ViewOf(ApplyAll(b, trace), PipeId(pipe), pipe.msg)
         == ViewOf(ApplyAll(b, Commands(pipe)), PipeId(pipe), pipe.msg)
  {
    ForeignIsInvisible(b, b, trace, PipeId(pipe), pipe.msg);
    PrefixesAreAbsorbed(b, pipe, failed);
    PrefixIsAbsorbed(b, pipe, |Commands(pipe)|);
  }

  /** The prefixes that the first n attempts executed. */
  function Prefixes(cmds: seq<Command>, network: Network, n: nat): seq<seq<Command>> {
    if n == 0 then []
    else
      var executed := if network(n - 1).Answered? then |cmds| else Min(network(n - 1).executed, |cmds|);
      Prefixes(cmds, network, n - 1) + [cmds[..executed]]
  }

  lemma {:induction false} FlattenConcat(parts: seq<seq<Command>>, part: seq<Command>)
    ensures Flatten(parts + [part]) == Flatten(parts) + part
    decreases |parts|
  {
    if parts == [] {
      assert parts + [part] == [part] && [part][1..] == [];
    } else {
      assert (parts + [part])[1..] == parts[1..] + [part];
      FlattenConcat(parts[1..], part);
    }
  }

  /** What the retry loop leaves at the broker is what the prefixes of its attempts make of it, one after
      the other. */
  lemma {:induction false} ReplayIsTrace(b: Broker, cmds: seq<Command>, network: Network, n: nat)
    ensures Replay(b, cmds, network, n) == ApplyAll(b, Flatten(Prefixes(cmds, network, n)))
  {
    if n > 0 {
      ReplayIsTrace(b, cmds, network, n - 1);
      var last := cmds[..Executed(network(n - 1), cmds)];
      FlattenConcat(Prefixes(cmds, network, n - 1), last);
      ApplyAllConcat(b, Flatten(Prefixes(cmds, network, n - 1)), last);
    }
  }

  lemma {:induction false} ReplayKeepsGoal(b: Broker, pipe: Pipe, network: Network, n: nat)
    requires pipe.Report? || pipe.Reack?
    ensures AfterPipe(ViewOf(Replay(b, Commands(pipe), network, n), PipeId(pipe), pipe.msg), pipe)
         == AfterPipe(ViewOf(b, PipeId(pipe), pipe.msg), pipe)
  {
    if n > 0 {
      ReplayKeepsGoal(b, pipe, network, n - 1);
      PrefixIsAbsorbed(Replay(b, Commands(pipe), network, n - 1), pipe, Executed(network(n - 1), Commands(pipe)));
    }
  }

  /** When run_pipe_with_retry succeeds, the job's keys and entry are as after one clean pipe. */
  lemma AnsweredReplayIsComplete(b: Broker, pipe: Pipe, network: Network, n: nat)
    requires (pipe.Report? || pipe.Reack?) && n > 0 && network(n - 1).Answered?
    ensures ViewOf(Replay(b, Commands(pipe), network, n), PipeId(pipe), pipe.msg)
         == AfterPipe(ViewOf(b, PipeId(pipe), pipe.msg), pipe)
  {
    var b' := Replay(b, Commands(pipe), network, n - 1);
    ReplayKeepsGoal(b, pipe, network, n - 1);
    PrefixIsAbsorbed(b', pipe, |Commands(pipe)|);
    assert Commands(pipe)[..|Commands(pipe)|] == Commands(pipe);
  }
}
