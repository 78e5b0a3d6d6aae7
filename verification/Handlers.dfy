/** How long a gateway waits for a submission, src/api/handlers.rs, and the limits on submissions that
    src/orchestrator/job.rs checks before. Lengths are in bytes; u64 wraps around. */
module Handlers {
  import opened Prelude

  const MAX_TEST_CASES: nat := 100
  const MAX_TESTCASE_BYTES: nat := 524_288
  const MAX_SOURCE_BYTES: nat := 1_048_576
  const MAX_TIME_LIMIT_MS: nat := 60_000
  const MAX_MEMORY_LIMIT_BYTES: nat := 2_147_483_648

  datatype TestCase = TestCase(input: nat, expected: Option<nat>)

  datatype Submission = Submission(source: nat, tests: seq<TestCase>, timeLimitMs: nat, memoryLimitBytes: nat)

  datatype Violation =
    | SourceTooLong | NoTests | TooManyTests
    | InputTooLong(i: nat) | ExpectedTooLong(i: nat)
    | TimeLimitOutOfRange | MemoryLimitOutOfRange

  predicate Violates(s: Submission, v: Violation) {
    match v
    case SourceTooLong => s.source > MAX_SOURCE_BYTES
    case NoTests => s.tests == []
    case TooManyTests => |s.tests| > MAX_TEST_CASES
    case InputTooLong(i) => i < |s.tests| && s.tests[i].input > MAX_TESTCASE_BYTES
    case ExpectedTooLong(i) =>
      i < |s.tests| && s.tests[i].expected.Some? && s.tests[i].expected.value > MAX_TESTCASE_BYTES
    case TimeLimitOutOfRange => s.timeLimitMs == 0 || s.timeLimitMs > MAX_TIME_LIMIT_MS
    case MemoryLimitOutOfRange => s.memoryLimitBytes == 0 || s.memoryLimitBytes > MAX_MEMORY_LIMIT_BYTES
  }

  /** The order in which validate looks for violations, test by test. */
  function Rank(s: Submission, v: Violation): nat {
    match v
    case SourceTooLong => 0
    case NoTests => 1
    case TooManyTests => 2
    case InputTooLong(i) => 3 + 2 * i
    case ExpectedTooLong(i) => 4 + 2 * i
    case TimeLimitOutOfRange => 3 + 2 * |s.tests|
    case MemoryLimitOutOfRange => 4 + 2 * |s.tests|
  }

  ghost predicate IsValid(s: Submission) {
    forall v: Violation :: !Violates(s, v)
  }

  /** validate accepts exactly the submissions without any violation, and reports the first one. */
  method Validate(s: Submission) returns (r: Result<(), Violation>)
    ensures r.Success? <==> IsValid(s)
    ensures r.Failure? ==> Violates(s, r.error)
    ensures r.Failure? ==> forall v: Violation :: Violates(s, v) ==> Rank(s, r.error) <= Rank(s, v)
  {
    if s.source > MAX_SOURCE_BYTES {
      assert Violates(s, SourceTooLong);
      return Failure(SourceTooLong);
    }
    if s.tests == [] {
      assert Violates(s, NoTests);
      return Failure(NoTests);
    }
    if |s.tests| > MAX_TEST_CASES {
      assert Violates(s, TooManyTests);
      return Failure(TooManyTests);
    }
    for i := 0 to |s.tests|
      invariant forall v: Violation :: Violates(s, v) ==> Rank(s, v) >= 3 + 2 * i
    {
      if s.tests[i].input > MAX_TESTCASE_BYTES {
        assert Violates(s, InputTooLong(i));
        return Failure(InputTooLong(i));
      }
      if s.tests[i].expected.Some? && s.tests[i].expected.value > MAX_TESTCASE_BYTES {
        assert Violates(s, ExpectedTooLong(i));
        return Failure(ExpectedTooLong(i));
      }
    }
    if s.timeLimitMs == 0 || s.timeLimitMs > MAX_TIME_LIMIT_MS {
      assert Violates(s, TimeLimitOutOfRange);
      return Failure(TimeLimitOutOfRange);
    }
    if s.memoryLimitBytes == 0 || s.memoryLimitBytes > MAX_MEMORY_LIMIT_BYTES {
      assert Violates(s, MemoryLimitOutOfRange);
      return Failure(MemoryLimitOutOfRange);
    }
    return Success(());
  }

  function Wrapped(n: nat): nat {
    n % TWO_64
  }

  /** max_wait_ms on u64: each operation wraps. */
  function MaxWaitMs(s: Submission): nat {
    Max(Wrapped(Wrapped(Wrapped(s.timeLimitMs * |s.tests|) * 3) + 60_000), 600_000)
  }

  /** The EX argument of the pending marker. */
  function PendingTtlSecs(s: Submission): nat {
    Wrapped(MaxWaitMs(s) / 1000 + 60)
  }

  /** For every validated submission nothing wraps: the wait covers three times the limits of all its
      tests and a minute, between ten minutes and 18,060 seconds. */
  lemma ValidatedWait(s: Submission)
    requires IsValid(s)
    ensures MaxWaitMs(s) == Max(s.timeLimitMs * |s.tests| * 3 + 60_000, 600_000)
    ensures 600_000 <= MaxWaitMs(s) <= 18_060_000
  {
    assert s.timeLimitMs <= MAX_TIME_LIMIT_MS by { assert !Violates(s, TimeLimitOutOfRange); }
    assert |s.tests| <= MAX_TEST_CASES by { assert !Violates(s, TooManyTests); }
    ProductBound(s.timeLimitMs, |s.tests|, MAX_TIME_LIMIT_MS, MAX_TEST_CASES);
    SmallWait(s.timeLimitMs * |s.tests|);
  }

  lemma SmallWait(limits: nat)
    requires limits <= 6_000_000
    ensures Wrapped(Wrapped(Wrapped(limits) * 3) + 60_000) == limits * 3 + 60_000
  {
  }

  lemma ProductBound(a: nat, b: nat, x: nat, y: nat)
    requires a <= x && b <= y
    ensures a * b <= x * y
  {
  }

  /** Rounding down to seconds loses less than one. */
  lemma WholeSeconds(ms: nat)
    ensures ms - 1000 < 1000 * (ms / 1000) <= ms
  {
  }

  lemma TtlDoesNotWrap(s: Submission)
    ensures PendingTtlSecs(s) == MaxWaitMs(s) / 1000 + 60
  {
    assert MaxWaitMs(s) < TWO_64;
  }

  /** The marker outlasts the wait: a marker claimed no earlier than the deadline was computed is still
      there when the deadline passes, for any u64 limit, validated or not, and not much longer: its
      lifetime is more than the wait, by a minute at most. */
  lemma MarkerOutlastsWait(s: Submission, started: nat, claimed: nat)
    requires started <= claimed
    ensures claimed + 1000 * PendingTtlSecs(s) > started + MaxWaitMs(s)
    ensures MaxWaitMs(s) + 59_000 < 1000 * PendingTtlSecs(s) <= MaxWaitMs(s) + 60_000
  {
    TtlDoesNotWrap(s);
    WholeSeconds(MaxWaitMs(s));
  }
}
