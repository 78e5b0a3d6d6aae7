/** The verdict on one test case: src/orchestrator/pipeline.rs on top of the sandbox's result. */
module Verdict {
  import opened Prelude
  import S = Supervisor
  import R = Reaper

  type Bytes = S.Bytes

  datatype JudgeVerdict =
    | Accepted | WrongAnswer | TimeLimitExceeded | MemoryLimitExceeded | RuntimeError | CompilationError

  /** The request's limits and what the test expects, if anything. */
  datatype Test = Test(expected: Option<Bytes>)
  datatype Limits = Limits(timeLimitMs: nat, memoryLimitBytes: nat)

  // ----- trim_bytes -----

  /** u8::is_ascii_whitespace: space, tab, line feed, form feed, carriage return. */
  predicate IsSpace(c: bv8) {
    c == 0x20 || c == 0x09 || c == 0x0A || c == 0x0C || c == 0x0D
  }

  predicate Blank(b: Bytes) {
    forall i | 0 <= i < |b| :: IsSpace(b[i])
  }

  /** The position of the first byte that is no whitespace, or the length. */
  function Start(b: Bytes): (start: nat)
    ensures start <= |b| && Blank(b[..start]) && (start < |b| ==> !IsSpace(b[start]))
  {
    if b == [] || !IsSpace(b[0]) then 0
    else
      var start := 1 + Start(b[1..]);
      assert b[..start] == [b[0]] + b[1..][..start - 1];
      start
  }

  /** One past the last byte that is no whitespace; `otherwise` if there is none. */
  function End(b: Bytes, otherwise: nat): (end: nat)
    ensures (end == otherwise && Blank(b)) || (0 < end <= |b| && !IsSpace(b[end - 1]) && Blank(b[end..]))
  {
    if b == [] then otherwise
    else if !IsSpace(b[|b| - 1]) then |b|
    else
      var end := End(b[..|b| - 1], otherwise);
      assert b == b[..|b| - 1] + [b[|b| - 1]];
      assert end <= |b| - 1 ==> b[end..] == b[..|b| - 1][end..] + [b[|b| - 1]];
      end
  }

  function TrimBytes(b: Bytes): Bytes {
    var start := Start(b);
    var end := End(b, start);
    BlankThroughout(b);
    b[start..end]
  }

  lemma BlankThroughout(b: Bytes)
    ensures Start(b) <= End(b, Start(b)) <= |b|
  {
    var start := Start(b);
    assert forall i | 0 <= i < start :: b[i] == b[..start][i];
  }

  /** `core` is what is left of `b` without blanks around it. */
  ghost predicate IsCore(b: Bytes, core: Bytes) {
    && (core != [] ==> !IsSpace(core[0]) && !IsSpace(core[|core| - 1]))
    && exists before: Bytes, behind: Bytes :: Blank(before) && Blank(behind) && b == before + core + behind
  }

  lemma TrimIsCore(b: Bytes)
    ensures IsCore(b, TrimBytes(b))
  {
    BlankThroughout(b);
    var start, end := Start(b), End(b, Start(b));
    assert b == b[..start] + b[start..end] + b[end..];
    assert Blank(b[end..]);
  }

  lemma StartOf(before: Bytes, core: Bytes, behind: Bytes)
    requires Blank(before) && core != [] && !IsSpace(core[0])
    ensures Start(before + core + behind) == |before|
  {
    var b := before + core + behind;
    assert b[|before|] == core[0];
    assert forall i | 0 <= i < |before| :: b[i] == before[i];
    assert forall i | 0 <= i < Start(b) :: b[i] == b[..Start(b)][i];
  }

  lemma EndOf(before: Bytes, core: Bytes, behind: Bytes, otherwise: nat)
    requires Blank(behind) && core != [] && !IsSpace(core[|core| - 1])
    ensures End(before + core + behind, otherwise) == |before| + |core|
  {
    var b, n := before + core + behind, |before| + |core|;
    var end := End(b, otherwise);
    assert b[n - 1] == core[|core| - 1];
    assert !Blank(b);
    assert forall i | n <= i < |b| :: b[i] == behind[i - n];
    assert forall i | end <= i < |b| :: b[i] == b[end..][i - end];
  }

  lemma CoreIsTrim(b: Bytes, core: Bytes)
    requires IsCore(b, core)
    ensures core == TrimBytes(b)
  {
    var before: Bytes, behind: Bytes :| Blank(before) && Blank(behind) && b == before + core + behind;
    if core == [] {
      assert Blank(b);
      BlankThroughout(b);
    } else {
      StartOf(before, core, behind);
      EndOf(before, core, behind, Start(b));
    }
  }

  /** Trimmed outputs are equal exactly if both are the same core within blanks of any length. */
  lemma EqualUpToBlanks(a: Bytes, b: Bytes)
    ensures TrimBytes(a) == TrimBytes(b) <==> exists core :: IsCore(a, core) && IsCore(b, core)
  {
    TrimIsCore(a);
    TrimIsCore(b);
    if core :| IsCore(a, core) && IsCore(b, core) {
      CoreIsTrim(a, core);
      CoreIsTrim(b, core);
    }
  }

  // ----- the verdict -----

  function VerdictOf(result: S.ExecutionResult, test: Test, limits: Limits): JudgeVerdict {
    match result.status
    case Ok =>
      if S.OverMemory(limits.memoryLimitBytes, result.memoryKb) then MemoryLimitExceeded
      else if test.expected.Some? then
        if TrimBytes(result.stdout) == TrimBytes(test.expected.value) then Accepted else WrongAnswer
      else Accepted
    case TimeLimitExceeded => TimeLimitExceeded
    case MemoryLimitExceeded => MemoryLimitExceeded
    case _ =>
      if S.OverMemory(limits.memoryLimitBytes, result.memoryKb) then MemoryLimitExceeded
      else if result.cpuTimeMs >= limits.timeLimitMs then TimeLimitExceeded
      else RuntimeError
  }

  /** A test as it runs: the sandbox's configuration, the exit the supervisor used and when, the
      cgroup's numbers, and what the child's stdout delivered. */
  datatype Observation = Observation(
    config: S.Config, exit: R.ChildExit, wallTimeMs: nat, stats: Option<S.Stats>, stdout: seq<S.Read>, stderr: Bytes)

  /** Sandbox::execute, from the supervised exit to its result. */
  function Executed(o: Observation): S.ExecutionResult {
    S.Finished(o.config, S.BuildResult(o.config, o.exit, o.wallTimeMs, o.stats),
               S.Take(S.Delivered(o.stdout), o.config.maxOutputBytes), o.stderr)
  }

  // What an observation says, by the raw numbers.

  /** The status word is a normal exit with this code. */
  predicate Exits(o: Observation, code: int) {
    o.exit.status % 128 == 0 && o.exit.status / 256 % 256 == code
  }

  predicate Killed(o: Observation) {
    o.exit.status % 128 == 9
  }

  /** Any other end: an exit with another code, another signal, or a word that is neither. */
  predicate Crashes(o: Observation) {
    !Exits(o, 0) && !Killed(o)
  }

  predicate OutOfMemory(o: Observation) {
    o.stats.Some? && o.stats.value.oomKills > 0
  }

  /** The peak in whole KB, by rusage or by the cgroup, is more than a limit of at least a KB. */
  predicate Exceeds(o: Observation, limitBytes: nat) {
    limitBytes >= 1024
    && (1024 * o.exit.maxRssKb > limitBytes
        || (o.stats.Some? && o.stats.value.memoryPeakBytes / 1024 * 1024 > limitBytes))
  }

  predicate Floods(o: Observation) {
    |S.Delivered(o.stdout)| >= o.config.maxOutputBytes
  }

  predicate UsesCpu(o: Observation, ms: int) {
    o.exit.cpuTimeUs >= 1000 * ms
  }

  /** The SIGKILL came at the wall limit, or within 50 ms of the CPU limit. */
  predicate KilledInTime(o: Observation) {
    o.wallTimeMs >= o.config.wallTimeLimitMs || UsesCpu(o, o.config.timeLimitMs - 50)
  }

  ghost predicate Matches(output: Bytes, expected: Option<Bytes>) {
    expected.Some? ==> exists core :: IsCore(output, core) && IsCore(expected.value, core)
  }

  lemma ExceedsIff(o: Observation, limitBytes: nat)
    ensures S.OverMemory(limitBytes, S.MemoryKb(o.exit, o.stats)) <==> Exceeds(o, limitBytes)
  {
  }

  lemma UsesCpuIff(o: Observation, ms: nat)
    ensures S.CpuTimeMs(o.exit) >= ms <==> UsesCpu(o, ms)
  {
  }

  /** The numbers that the result reports. */
  lemma ExecutedReports(o: Observation)
    ensures var r := Executed(o);
            && 1000 * r.cpuTimeMs <= o.exit.cpuTimeUs < 1000 * (r.cpuTimeMs + 1)
            && r.wallTimeMs == o.wallTimeMs && r.stderr == o.stderr && r.exitCode == o.exit.status / 256 % 256
            && (forall limit: nat :: limit >= 1024 ==> (r.memoryKb > limit / 1024 <==> Exceeds(o, limit)))
            && r.stdout <= S.Delivered(o.stdout)
            && |r.stdout| == Min(|S.Delivered(o.stdout)|, o.config.maxOutputBytes)
  {
    forall limit: nat | limit >= 1024 ensures Executed(o).memoryKb > limit / 1024 <==> Exceeds(o, limit) {
      ExceedsIff(o, limit);
    }
  }

  /** How the sandbox classifies an observation whose output is below the cap. */
  lemma StatusIs(o: Observation)
    requires !Floods(o)
    ensures var status := Executed(o).status;
            if OutOfMemory(o) then status.MemoryLimitExceeded?
            else if Exits(o, 0) then
              if Exceeds(o, o.config.memoryLimitBytes) then status.MemoryLimitExceeded? else status.Ok?
            else if Killed(o) then
              if KilledInTime(o) || !Exceeds(o, o.config.memoryLimitBytes)
              then status.TimeLimitExceeded? else status.MemoryLimitExceeded?
            else status.RuntimeError? || status.Signaled?
  {
    ExceedsIff(o, o.config.memoryLimitBytes);
    UsesCpuIff(o, Max(o.config.timeLimitMs - 50, 0));
  }

  /** Verdict exactness, end to end. A test is Accepted exactly if the status word is a normal exit with
      code 0, no OOM kill was read, the peak memory is within both limits that are not zero, the child
      delivered less output than the cap, and all of it equals the expected output up to surrounding
      whitespace, if any is expected. */
  lemma AcceptedIff(o: Observation, test: Test, limits: Limits)
    ensures VerdictOf(Executed(o), test, limits) == Accepted
       <==> && Exits(o, 0) && !OutOfMemory(o) && !Floods(o)
            && !Exceeds(o, o.config.memoryLimitBytes) && !Exceeds(o, limits.memoryLimitBytes)
            && Matches(S.Delivered(o.stdout), test.expected)
  {
    VerdictIs(o, test, limits);
  }

  /** ... and WrongAnswer exactly if only the output is different. */
  lemma WrongAnswerIff(o: Observation, test: Test, limits: Limits)
    ensures VerdictOf(Executed(o), test, limits) == WrongAnswer
       <==> && Exits(o, 0) && !OutOfMemory(o) && !Floods(o)
            && !Exceeds(o, o.config.memoryLimitBytes) && !Exceeds(o, limits.memoryLimitBytes)
            && !Matches(S.Delivered(o.stdout), test.expected)
  {
    VerdictIs(o, test, limits);
  }

  /** It is MemoryLimitExceeded exactly after an OOM kill; or if the peak memory is over the request's
      limit and the child was not killed, or its output reached the cap; or if it is over the sandbox's
      limit and the child exited with code 0, or was killed before its time. */
  lemma MemoryLimitIff(o: Observation, test: Test, limits: Limits)
    ensures VerdictOf(Executed(o), test, limits) == MemoryLimitExceeded
       <==> || (!Floods(o) && OutOfMemory(o))
            || (Exceeds(o, limits.memoryLimitBytes) && (Floods(o) || !Killed(o)))
            || (Exceeds(o, o.config.memoryLimitBytes) && !Floods(o)
                && (Exits(o, 0) || (Killed(o) && !KilledInTime(o))))
  {
    VerdictIs(o, test, limits);
  }

  /** It is TimeLimitExceeded exactly if the child was killed, unless that was before its time and for its
      memory; or if it crashed or flooded its output after using up the CPU time, within its memory. */
  lemma TimeLimitIff(o: Observation, test: Test, limits: Limits)
    ensures VerdictOf(Executed(o), test, limits) == TimeLimitExceeded
       <==> || (!Floods(o) && !OutOfMemory(o) && Killed(o)
                && (KilledInTime(o) || !Exceeds(o, o.config.memoryLimitBytes)))
            || ((Floods(o) || (!OutOfMemory(o) && Crashes(o)))
                && !Exceeds(o, limits.memoryLimitBytes) && UsesCpu(o, limits.timeLimitMs))
  {
    VerdictIs(o, test, limits);
  }

  /** It is RuntimeError exactly if the child crashed or flooded its output, within memory and time. */
  lemma RuntimeErrorIff(o: Observation, test: Test, limits: Limits)
    ensures VerdictOf(Executed(o), test, limits) == RuntimeError
       <==> && (Floods(o) || (!OutOfMemory(o) && Crashes(o)))
            && !Exceeds(o, limits.memoryLimitBytes) && !UsesCpu(o, limits.timeLimitMs)
  {
    VerdictIs(o, test, limits);
  }

  /** The verdict by cases; CompilationError is none of them. */
  lemma VerdictIs(o: Observation, test: Test, limits: Limits)
    ensures var verdict := VerdictOf(Executed(o), test, limits);
            if Floods(o) || (!OutOfMemory(o) && Crashes(o)) then
              if Exceeds(o, limits.memoryLimitBytes) then verdict == MemoryLimitExceeded
              else if UsesCpu(o, limits.timeLimitMs) then verdict == TimeLimitExceeded
              else verdict == RuntimeError
            else if OutOfMemory(o) then verdict == MemoryLimitExceeded
            else if Killed(o) then
              if KilledInTime(o) || !Exceeds(o, o.config.memoryLimitBytes)
              then verdict == TimeLimitExceeded else verdict == MemoryLimitExceeded
            else if Exceeds(o, o.config.memoryLimitBytes) || Exceeds(o, limits.memoryLimitBytes)
            then verdict == MemoryLimitExceeded
            else verdict == if Matches(S.Delivered(o.stdout), test.expected) then Accepted else WrongAnswer
  {
    ExceedsIff(o, limits.memoryLimitBytes);
    UsesCpuIff(o, limits.timeLimitMs);
    if !Floods(o) {
      StatusIs(o);
      if test.expected.Some? {
        EqualUpToBlanks(S.Delivered(o.stdout), test.expected.value);
      }
    }
  }

  /** A made-up exit never counts as accepted, wrong or a crash. */
  lemma UndeliveredVerdict(o: Observation, test: Test, limits: Limits)
    requires o.exit == S.SYNTHESIZED_EXIT && o.wallTimeMs >= o.config.wallTimeLimitMs
    requires |S.Delivered(o.stdout)| < o.config.maxOutputBytes
    ensures VerdictOf(Executed(o), test, limits)
         == if S.OomKilled(o.stats) then MemoryLimitExceeded else TimeLimitExceeded
  {
    S.SynthesizedIsTimeLimit(o.config, o.wallTimeMs, o.stats);
  }

  /** One test from its supervision to its verdict; `wall` is build_result's own reading of the clock
      after iteration k. The verdict is that of the first exit that is delivered. If none ever is, the
      test is judged TimeLimitExceeded, or MemoryLimitExceeded after an OOM kill, with less than a cap of
      output. */
  method JudgeTest(config: S.Config, tl: S.Timeline, wall: nat -> nat, stats: Option<S.Stats>, stdout: seq<S.Read>,
        stderr: Bytes, test: Test, limits: Limits, ghost step: nat)
    returns (verdict: JudgeVerdict, last: nat)
    requires S.Ticks(tl, step) && forall k: nat :: tl.now(k) <= wall(k)
    ensures forall k | 0 <= k < last :: tl.take(k).None?
    ensures tl.take(last).Some? ==>
              var o := Observation(config, tl.take(last).value, wall(last), stats, stdout, stderr);
              verdict == VerdictOf(Executed(o), test, limits)
    ensures tl.take(last).None? && |S.Delivered(stdout)| < config.maxOutputBytes ==>
              verdict == if S.OomKilled(stats) then MemoryLimitExceeded else TimeLimitExceeded
    ensures (forall k: nat :: tl.take(k).None?) && |S.Delivered(stdout)| < config.maxOutputBytes ==>
              verdict == if S.OomKilled(stats) then MemoryLimitExceeded else TimeLimitExceeded
  {
    var exit, _, k := S.Supervise(config, tl, step);
    last := k;
    var o := Observation(config, exit, wall(last), stats, stdout, stderr);
    verdict := VerdictOf(Executed(o), test, limits);
    if tl.take(last).None? && |S.Delivered(stdout)| < config.maxOutputBytes {
      UndeliveredVerdict(o, test, limits);
    }
  }
}
