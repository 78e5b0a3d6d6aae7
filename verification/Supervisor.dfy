/**
 Supervision of one sandboxed child: src/sandbox/supervisor.rs and the pipes of src/sandbox/mod.rs.
 The clock, the reaper's deliveries, rusage, the cgroup's numbers and what the pipes return are inputs.
 Times are milliseconds since the supervisor was created.
 */
module Supervisor {
  import opened Prelude
  import opened Reaper

  type Bytes = seq<bv8>

  datatype Config = Config(timeLimitMs: nat, wallTimeLimitMs: nat, memoryLimitBytes: nat, maxOutputBytes: nat)

  // What cgroups.rs events; absent if the read fails.
  datatype Stats = Stats(memoryPeakBytes: nat, oomKills: nat)

  datatype SandboxStatus =
    | Ok | TimeLimitExceeded | MemoryLimitExceeded | OutputLimitExceeded
    | RuntimeError(code: int) | Signaled(signal: int)

  datatype ExecutionResult = ExecutionResult(
    status: SandboxStatus, exitCode: int, cpuTimeMs: nat, wallTimeMs: nat, memoryKb: nat, stdout: Bytes, stderr: Bytes)

  // ----- the status word of <sys/wait.h> -----

  const SIGKILL: int := 9

  function TermSig(status: int): int {
    status % 128
  }

  function ExitStatus(status: int): int {
    status / 256 % 256
  }

  predicate IfExited(status: int) {
    TermSig(status) == 0
  }

  /** WIFSIGNALED casts the low seven bits plus one to a signed byte: 127, a stopped child, is not one. */
  predicate IfSignaled(status: int) {
    var t := TermSig(status) + 1;
    var signedByte := if t < 128 then t else t - 256;
    signedByte >= 2
  }

  // ----- build_result -----

  function CpuTimeMs(exit: ChildExit): nat {
    exit.cpuTimeUs / 1000
  }

  function MemoryKb(exit: ChildExit, stats: Option<Stats>): nat {
    if stats.Some? then Max(stats.value.memoryPeakBytes / 1024, exit.maxRssKb) else exit.maxRssKb
  }

  predicate OverMemory(memoryLimitBytes: nat, memoryKb: nat) {
    memoryLimitBytes / 1024 > 0 && memoryKb > memoryLimitBytes / 1024
  }

  predicate OomKilled(stats: Option<Stats>) {
    stats.Some? && stats.value.oomKills > 0
  }

  function Classify(config: Config, exit: ChildExit, wallTimeMs: nat, stats: Option<Stats>): SandboxStatus {
    var memoryKb := MemoryKb(exit, stats);
    if OomKilled(stats) then MemoryLimitExceeded
    else if IfExited(exit.status) then
      if ExitStatus(exit.status) == 0 then
        if OverMemory(config.memoryLimitBytes, memoryKb) then MemoryLimitExceeded else Ok
      else RuntimeError(ExitStatus(exit.status))
    else if IfSignaled(exit.status) then
      if TermSig(exit.status) == SIGKILL then
        if wallTimeMs >= config.wallTimeLimitMs || CpuTimeMs(exit) >= Max(config.timeLimitMs - 50, 0)
        then TimeLimitExceeded
        else if OverMemory(config.memoryLimitBytes, memoryKb) then MemoryLimitExceeded
        else TimeLimitExceeded
      else Signaled(TermSig(exit.status))
    else RuntimeError(-1)
  }

  function BuildResult(config: Config, exit: ChildExit, wallTimeMs: nat, stats: Option<Stats>): ExecutionResult {
    ExecutionResult(Classify(config, exit, wallTimeMs, stats), ExitStatus(exit.status), CpuTimeMs(exit), wallTimeMs,
                    MemoryKb(exit, stats), [], [])
  }

  /** The status word of a child that ended with `code`, as the kernel builds it. */
  function ExitWord(code: nat): int
    requires code < 256
  {
    code * 256
  }

  /** ... and of one that a signal killed, with or without a core dump. */
  function SignalWord(signal: nat, core: bool): int
    requires 1 <= signal <= 64
  {
    signal + (if core then 128 else 0)
  }

  /** The macros invert the kernel's encoding, and no word is both an exit and a signal. */
  lemma StatusWordRoundTrip(code: nat, signal: nat, core: bool)
    requires code < 256 && 1 <= signal <= 64
    ensures IfExited(ExitWord(code)) && !IfSignaled(ExitWord(code)) && ExitStatus(ExitWord(code)) == code
    ensures IfSignaled(SignalWord(signal, core)) && !IfExited(SignalWord(signal, core))
    ensures TermSig(SignalWord(signal, core)) == signal
  {
  }

  /** The exit the supervisor makes up when the reaper never delivers one. */
  const SYNTHESIZED_EXIT: ChildExit := ChildExit(SIGKILL, 0, 0)

  lemma SynthesizedIsTimeLimit(config: Config, wallTimeMs: nat, stats: Option<Stats>)
    requires wallTimeMs >= config.wallTimeLimitMs
    ensures Classify(config, SYNTHESIZED_EXIT, wallTimeMs, stats)
         == if OomKilled(stats) then MemoryLimitExceeded else TimeLimitExceeded
  {
  }

  // ----- supervise -----

  const GRACE_MS: nat := 1000
  const POLL_MS: nat := 5

  /** One supervision by loop iterations: what try_take yields, and the two clock readings after it. */
  datatype Timeline = Timeline(take: nat -> Option<ChildExit>, now: nat -> nat, elapsed: nat -> nat)

  /** Iteration k sleeps 5 ms and takes `step` ms at most, delays included. */
  predicate TicksAt(tl: Timeline, k: nat, step: nat) {
    && tl.now(k) <= tl.elapsed(k) <= tl.now(k + 1)
    && tl.now(k) + POLL_MS <= tl.now(k + 1) <= tl.now(k) + step
  }

  ghost predicate Ticks(tl: Timeline, step: nat) {
    tl.now(0) <= step && forall k: nat :: TicksAt(tl, k, step)
  }

  /** The wall limit was seen to have passed, and a full grace second went by until iteration `last`. */
  ghost predicate GraceElapsed(config: Config, tl: Timeline, k: nat, last: nat) {
    k < last && tl.elapsed(k) >= config.wallTimeLimitMs && tl.now(last) >= tl.now(k) + GRACE_MS
  }

  /** Iteration k is the first at which the wall limit was seen to have passed or the exit was taken. */
  ghost predicate KillsAt(config: Config, tl: Timeline, k: nat, last: nat) {
    && k <= last && (forall j | 0 <= j < k :: tl.elapsed(j) < config.wallTimeLimitMs)
    && (tl.elapsed(k) >= config.wallTimeLimitMs || (k == last && tl.take(last).Some?))
  }

  /** supervise ends within the wall limit, the grace second and two polls, even if no exit is ever
      delivered. It kills the process tree exactly once, at the wall limit or, for its stragglers, when
      the child has ended before. It uses the first exit that is delivered, and makes one up only when
      none was, after the wall limit and a full grace second. `kills` are the iterations that kill. */
  method Supervise(config: Config, tl: Timeline, ghost step: nat)
    returns (exit: ChildExit, kills: seq<nat>, last: nat)
    requires Ticks(tl, step)
    ensures |kills| == 1 && KillsAt(config, tl, kills[0], last)
    ensures forall k | 0 <= k < last :: tl.take(k).None?
    ensures tl.take(last).Some? ==> exit == tl.take(last).value
    ensures tl.take(last).None? ==>
              exit == SYNTHESIZED_EXIT && tl.now(last) >= config.wallTimeLimitMs
              && exists k :: GraceElapsed(config, tl, k, last)
    ensures tl.now(last) < config.wallTimeLimitMs + GRACE_MS + 2 * step + 1
  {
    var killGrace: Option<nat> := None;
    ghost var killedAt: nat := 0;
    kills, last := [], 0;
    while true
      invariant forall k | 0 <= k < last :: tl.take(k).None?
      invariant kills == if killGrace.Some? then [killedAt] else []
      invariant forall j | 0 <= j < (if killGrace.Some? then killedAt else last) ::
                  tl.elapsed(j) < config.wallTimeLimitMs
      invariant killGrace.Some? ==>
                  && killedAt < last && tl.elapsed(killedAt) >= config.wallTimeLimitMs
                  && killGrace.value == tl.now(killedAt) + GRACE_MS <= config.wallTimeLimitMs + step + GRACE_MS
                  && tl.now(last - 1) < killGrace.value && config.wallTimeLimitMs <= tl.now(last)
      invariant last > 0 ==> TicksAt(tl, last - 1, step)
      invariant tl.now(last) < config.wallTimeLimitMs + GRACE_MS + 2 * step + 1
      decreases config.wallTimeLimitMs + GRACE_MS + 2 * step + 1 - tl.now(last)
    {
      if tl.take(last).Some? {
        if killGrace.None? {
          kills := kills + [last];  // stragglers of a natural exit
        }
        return tl.take(last).value, kills, last;
      }
      var now := tl.now(last);
      if killGrace.None? && tl.elapsed(last) >= config.wallTimeLimitMs {
        kills := kills + [last];
        killGrace := Some(now + GRACE_MS);
        killedAt := last;
      }
      if killGrace.Some? && now >= killGrace.value {
        assert GraceElapsed(config, tl, killedAt, last);
        return SYNTHESIZED_EXIT, kills, last;
      }
      assert TicksAt(tl, last, step);
      last := last + 1;
    }
  }

  // ----- output and input pipes -----

  /** One read(2): up to 8192 bytes, an interrupted call, an error, or the end. */
  datatype Read = Data(bytes: Bytes) | Interrupted | Error | Eof

  predicate ValidRead(r: Read) {
    r.Data? ==> 0 < |r.bytes| <= 8192
  }

  /** The bytes the descriptor delivers until its end or its first real error. */
  function Delivered(events: seq<Read>): Bytes {
    if events == [] || events[0].Eof? || events[0].Error? then []
    else if events[0].Interrupted? then Delivered(events[1..])
    else events[0].bytes + Delivered(events[1..])
  }

  predicate Ends(r: Read) {
    r.Eof? || r.Error?
  }

  /** The bytes of all reads that returned some. */
  function DataOf(events: seq<Read>): Bytes {
    if events == [] then []
    else
      var last := events[|events| - 1];
      DataOf(events[..|events| - 1]) + if last.Data? then last.bytes else []
  }

  lemma {:induction false} DataOfConcat(xs: seq<Read>, ys: seq<Read>)
    ensures DataOf(xs + ys) == DataOf(xs) + DataOf(ys)
    decreases |ys|
  {
    if ys == [] {
      assert xs + ys == xs;
    } else {
      assert (xs + ys)[..|xs + ys| - 1] == xs + ys[..|ys| - 1];
      DataOfConcat(xs, ys[..|ys| - 1]);
    }
  }

  /** What is delivered is all data up to the first end or error, the n-th event, if there is one; an
      interrupted read ends nothing. */
  lemma {:induction false} DeliveredIsData(events: seq<Read>, n: nat)
    requires n <= |events| && (n < |events| ==> Ends(events[n])) && forall i | 0 <= i < n :: !Ends(events[i])
    ensures Delivered(events) == DataOf(events[..n])
  {
    if n > 0 {
      DeliveredIsData(events[1..], n - 1);
      assert events[..n] == [events[0]] + events[1..][..n - 1];
      DataOfConcat([events[0]], events[1..][..n - 1]);
      assert [events[0]][..0] == [];
    }
  }

  function Take(b: Bytes, n: nat): Bytes {
    if n < |b| then b[..n] else b
  }

  /** read_pipe_output. It captures exactly the first min(total, cap) bytes that are delivered, for
      every chunking and every pattern of interruptions, and never more than the cap. */
  method ReadPipeOutput(events: seq<Read>, maxBytes: nat) returns (buffer: Bytes)
    requires forall i | 0 <= i < |events| :: ValidRead(events[i])
    ensures buffer == Take(Delivered(events), maxBytes)
  {
    buffer := [];
    var i := 0;
    while i < |events|
      invariant 0 <= i <= |events| && |buffer| <= maxBytes
      invariant buffer + Delivered(events[i..]) == Delivered(events)
    {
      var read := events[i];
      assert events[i..][0] == read && events[i..][1..] == events[i + 1..];
      if read.Interrupted? {
        i := i + 1;
        continue;
      }
      if read.Error? || read.Eof? {
        assert Delivered(events[i..]) == [];
        assert buffer + [] == buffer;
        return;
      }
      ghost var rest := Delivered(events[i + 1..]);
      assert Delivered(events) == buffer + read.bytes + rest;
      if |buffer| + |read.bytes| > maxBytes {
        var remaining := maxBytes - |buffer|;
        assert (buffer + read.bytes + rest)[..maxBytes] == buffer + read.bytes[..remaining];
        buffer := buffer + read.bytes[..remaining];
        return;
      }
      buffer := buffer + read.bytes;
      i := i + 1;
    }
    assert events[i..] == [] && buffer + [] == buffer;
  }

  /** How much of `total` bytes of input the child gets when the writes return these counts. A count of
      zero or less ends the loop, an interrupted write like any other error. */
  function Fed(total: nat, counts: seq<int>): (n: nat)
    ensures n <= total
  {
    if total == 0 || counts == [] || counts[0] <= 0 then 0
    else
      var n := Min(counts[0], total);
      n + Fed(total - n, counts[1..])
  }

  /** write_all_to_fd, with the count each write(2) returns. */
  method WriteAll(data: Bytes, counts: seq<int>) returns (written: nat)
    ensures written == Fed(|data|, counts)
  {
    written := 0;
    var i := 0;
    while written < |data| && i < |counts|
      invariant written <= |data| && 0 <= i <= |counts|
      invariant written + Fed(|data| - written, counts[i..]) == Fed(|data|, counts)
    {
      assert counts[i..][0] == counts[i] && counts[i..][1..] == counts[i + 1..];
      if counts[i] <= 0 {
        break;
      }
      written := written + Min(counts[i], |data| - written);
      i := i + 1;
    }
  }

  function Sum(counts: seq<int>): int {
    if counts == [] then 0 else counts[0] + Sum(counts[1..])
  }

  /** The child gets as much of its input as the writes take before the first that fails, the n-th, if
      there is one. */
  lemma {:induction false} FedIs(total: nat, counts: seq<int>, n: nat)
    requires n <= |counts| && (n < |counts| ==> counts[n] <= 0) && forall i | 0 <= i < n :: counts[i] > 0
    ensures Sum(counts[..n]) >= 0 && Fed(total, counts) == Min(total, Sum(counts[..n]))
  {
    if n > 0 {
      var taken := Min(counts[0], total);
      FedIs(total - taken, counts[1..], n - 1);
      assert counts[..n][1..] == counts[1..][..n - 1];
    }
  }

  /** The first n writes all succeed and together take all of the input. */
  predicate Suffices(total: nat, counts: seq<int>, n: nat) {
    n <= |counts| && Sum(counts[..n]) >= total && forall i | 0 <= i < n :: counts[i] > 0
  }

  /** The child gets its whole input exactly if enough writes succeed before the first that does not. */
  lemma {:induction false} InputIsCompleteIff(total: nat, counts: seq<int>)
    ensures Fed(total, counts) == total <==> exists n :: Suffices(total, counts, n)
  {
    if total == 0 {
      assert counts[..0] == [] && Suffices(total, counts, 0);
    } else if counts == [] || counts[0] <= 0 {
      forall n: nat ensures !Suffices(total, counts, n) {
        assert counts[..0] == [];
      }
    } else {
      var n := Min(counts[0], total);
      var left, later := total - n, counts[1..];
      InputIsCompleteIff(left, later);
      if m: nat :| Suffices(left, later, m) {
        assert counts[..m + 1][1..] == later[..m];
        assert forall i | 0 < i < m + 1 :: counts[i] == later[i - 1];
        assert Suffices(total, counts, m + 1);
      }
      if m: nat :| Suffices(total, counts, m) {
        assert m > 0 by { assert counts[..0] == []; }
        assert counts[..m][1..] == later[..m - 1];
        if counts[0] >= total {
          assert later[..0] == [] && Suffices(left, later, 0);
        } else {
          assert Suffices(left, later, m - 1);
        }
      }
    }
  }

  // ----- Sandbox::execute -----

  /** The captured output decides last: a full buffer overrides every other status. */
  function Finished(config: Config, result: ExecutionResult, out: Bytes, err: Bytes): ExecutionResult {
    result.(stdout := out, stderr := err,
            status := if |out| >= config.maxOutputBytes then OutputLimitExceeded else result.status)
  }
}
