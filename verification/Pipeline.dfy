/** Evaluation of one job, src/orchestrator/pipeline.rs: tests complete in any order, and are then sorted
    and folded into one result. */
module Pipeline {
  import opened Prelude
  import opened Verdict
  import opened Scheduling
  import S = Supervisor

  datatype Job = Job(tests: seq<Test>, limits: Limits, stopOnFirstFail: bool)

  /** The sandbox's result of each test, or its error. A test's run does not depend on the schedule. */
  type Runs = seq<Result<S.ExecutionResult, string>>

  datatype TestResult = TestResult(
    index: nat, status: JudgeVerdict, cpuTimeMs: nat, memoryKb: nat, stdout: Bytes, stderr: Bytes)

  datatype JobResult = JobResult(
    verdict: JudgeVerdict, totalCpuTimeMs: nat, peakMemoryKb: nat, compileOutput: Option<Bytes>, tests: seq<TestResult>)

  datatype Raw = Raw(index: nat, verdict: JudgeVerdict, exec: S.ExecutionResult)

  predicate Fits(job: Job, runs: Runs, order: seq<nat>) {
    |runs| == |job.tests| && forall k | 0 <= k < |order| :: order[k] < |runs|
  }

  /** The completion of test i, if the sandbox did not fail. */
  function RawOf(job: Job, runs: Runs, i: nat): Raw
    requires |runs| == |job.tests| && i < |runs| && runs[i].Success?
  {
    Raw(i, VerdictOf(runs[i].value, job.tests[i], job.limits), runs[i].value)
  }

  // ----- run_tests -----

  /** What the loop over completions collects: it ends at a sandbox error, and at the first failing
      test if the job says so. */
  function Collect(job: Job, runs: Runs, order: seq<nat>): Result<seq<Raw>, string>
    requires Fits(job, runs, order)
    decreases |order|
  {
    if order == [] then Success([])
    else
      match runs[order[0]]
      case Failure(error) => Failure(error)
      case Success(_) =>
        var raw := RawOf(job, runs, order[0]);
        if job.stopOnFirstFail && raw.verdict != Accepted then Success([raw])
        else
          match Collect(job, runs, order[1..])
          case Failure(error) => Failure(error)
          case Success(rest) => Success([raw] + rest)
  }

  function Insert(raw: Raw, sorted: seq<Raw>): seq<Raw> {
    if sorted == [] || raw.index < sorted[0].index then [raw] + sorted
    else [sorted[0]] + Insert(raw, sorted[1..])
  }

  /** Vec::sort_by_key with the test index as key: stable insertion. */
  function SortByIndex(raws: seq<Raw>): seq<Raw> {
    if raws == [] then [] else Insert(raws[|raws| - 1], SortByIndex(raws[..|raws| - 1]))
  }

  function ToTestResult(raw: Raw): TestResult {
    TestResult(raw.index, raw.verdict, raw.exec.cpuTimeMs, raw.exec.memoryKb, raw.exec.stdout, raw.exec.stderr)
  }

  function Add(result: JobResult, raw: Raw): JobResult {
    result.(totalCpuTimeMs := result.totalCpuTimeMs + raw.exec.cpuTimeMs,
            peakMemoryKb := Max(result.peakMemoryKb, raw.exec.memoryKb),
            tests := result.tests + [ToTestResult(raw)],
            verdict := if raw.verdict != Accepted && result.verdict == Accepted then raw.verdict else result.verdict)
  }

  function Fold(base: JobResult, raws: seq<Raw>): JobResult {
    if raws == [] then base else Add(Fold(base, raws[..|raws| - 1]), raws[|raws| - 1])
  }

  predicate AllAccepted(tests: seq<TestResult>) {
    forall i | 0 <= i < |tests| :: tests[i].status == Accepted
  }

  function Judge(base: JobResult, raws: seq<Raw>): JobResult {
    var result := Fold(base, SortByIndex(raws));
    if AllAccepted(result.tests) then result.(verdict := Accepted) else result
  }

  function Evaluate(job: Job, runs: Runs, order: seq<nat>, base: JobResult): Result<JobResult, string>
    requires Fits(job, runs, order)
  {
    match Collect(job, runs, order)
    case Failure(error) => Failure("Sandbox error during execution: " + error)
    case Success(raws) => Success(Judge(base, raws))
  }

  lemma {:induction false} FoldOneMore(base: JobResult, raws: seq<Raw>, i: nat)
    requires i < |raws|
    ensures Fold(base, raws[..i + 1]) == Add(Fold(base, raws[..i]), raws[i])
  {
    assert raws[..i + 1][..i] == raws[..i];
  }

  /** run_tests, given the order in which the stream yields completions. */
  method RunTests(job: Job, runs: Runs, order: seq<nat>, base: JobResult) returns (r: Result<JobResult, string>)
    requires Fits(job, runs, order)
    ensures r == Evaluate(job, runs, order, base)
  {
    var raws: seq<Raw> := [];
    var k := 0;
    assert order[0..] == order && forall rest: seq<Raw> :: raws + rest == rest;
    while k < |order|
      invariant 0 <= k <= |order|
      invariant Collect(job, runs, order) ==
                match Collect(job, runs, order[k..])
                case Failure(e) => Failure(e)
                case Success(rest) => Success(raws + rest)
    {
      var i := order[k];
      assert order[k..][0] == i && order[k..][1..] == order[k + 1..];
      if runs[i].Failure? {
        return Failure("Sandbox error during execution: " + runs[i].error);
      }
      var raw := RawOf(job, runs, i);
      assert forall rest: seq<Raw> :: raws + ([raw] + rest) == raws + [raw] + rest;
      raws := raws + [raw];
      k := k + 1;
      if job.stopOnFirstFail && raw.verdict != Accepted {
        break;
      }
    }
    assert raws + [] == raws;
    assert Collect(job, runs, order) == Success(raws);
    var sorted := SortByIndex(raws);
    var result := base;
    for i := 0 to |sorted|
      invariant result == Fold(base, sorted[..i])
    {
      FoldOneMore(base, sorted, i);
      result := Add(result, sorted[i]);
    }
    assert sorted[..|sorted|] == sorted;
    if AllAccepted(result.tests) {
      result := result.(verdict := Accepted);
    }
    return Success(result);
  }

  // ----- sorting -----

  predicate Increasing(raws: seq<Raw>) {
    forall i, j | 0 <= i < j < |raws| :: raws[i].index < raws[j].index
  }

  predicate DistinctIndices(raws: seq<Raw>) {
    forall i, j | 0 <= i < j < |raws| :: raws[i].index != raws[j].index
  }

  lemma {:induction false} InsertKeeps(raw: Raw, sorted: seq<Raw>)
    ensures multiset(Insert(raw, sorted)) == multiset(sorted) + multiset{raw}
  {
    if sorted != [] && raw.index >= sorted[0].index {
      InsertKeeps(raw, sorted[1..]);
      assert sorted == [sorted[0]] + sorted[1..];
    }
  }

  lemma {:induction false} InsertSorts(raw: Raw, sorted: seq<Raw>)
    requires Increasing(sorted) && forall k | 0 <= k < |sorted| :: sorted[k].index != raw.index
    ensures Increasing(Insert(raw, sorted))
  {
    var s := Insert(raw, sorted);
    if sorted == [] || raw.index < sorted[0].index {
      assert forall j | 0 < j < |s| :: s[j] == sorted[j - 1];
    } else {
      var rest := Insert(raw, sorted[1..]);
      InsertSorts(raw, sorted[1..]);
      InsertBounds(raw, sorted[1..], sorted[0].index);
      assert forall j | 0 < j < |s| :: s[j] == rest[j - 1];
    }
  }

  lemma {:induction false} InsertBounds(raw: Raw, sorted: seq<Raw>, low: nat)
    requires low < raw.index && forall k | 0 <= k < |sorted| :: low < sorted[k].index
    ensures forall k | 0 <= k < |Insert(raw, sorted)| :: low < Insert(raw, sorted)[k].index
  {
    if sorted != [] && raw.index >= sorted[0].index {
      InsertBounds(raw, sorted[1..], low);
    }
  }

  lemma {:induction false} SortSorts(raws: seq<Raw>)
    requires DistinctIndices(raws)
    ensures Increasing(SortByIndex(raws)) && multiset(SortByIndex(raws)) == multiset(raws)
  {
    if raws != [] {
      var rest, last := raws[..|raws| - 1], raws[|raws| - 1];
      SortSorts(rest);
      var sorted := SortByIndex(rest);
      forall k | 0 <= k < |sorted| ensures sorted[k].index != last.index {
        assert sorted[k] in multiset(sorted);
        assert sorted[k] in rest;
      }
      InsertSorts(last, sorted);
      InsertKeeps(last, sorted);
      assert raws == rest + [last];
    }
  }

  /** An increasing sequence of n indices below n is 0, 1, ..., n - 1. */
  lemma IncreasingIsIdentity(raws: seq<Raw>, i: nat)
    requires Increasing(raws) && (forall k | 0 <= k < |raws| :: raws[k].index < |raws|) && i < |raws|
    ensures raws[i].index == i
  {
    IndexAtLeast(raws, i);
    IndexAtMost(raws, i);
  }

  lemma {:induction false} IndexAtLeast(raws: seq<Raw>, i: nat)
    requires Increasing(raws) && i < |raws|
    ensures i <= raws[i].index
  {
    if i > 0 {
      IndexAtLeast(raws, i - 1);
    }
  }

  lemma {:induction false} IndexAtMost(raws: seq<Raw>, i: nat)
    requires Increasing(raws) && (forall k | 0 <= k < |raws| :: raws[k].index < |raws|) && i < |raws|
    ensures raws[i].index <= i
    decreases |raws| - i
  {
    if i + 1 < |raws| {
      IndexAtMost(raws, i + 1);
    }
  }

  // ----- what the fold computes -----

  function TotalCpu(raws: seq<Raw>): nat {
    if raws == [] then 0 else TotalCpu(raws[..|raws| - 1]) + raws[|raws| - 1].exec.cpuTimeMs
  }

  /** `peak` is the largest of the base and the tests' memory. */
  predicate IsPeak(base: nat, raws: seq<Raw>, peak: nat) {
    && base <= peak && (forall i | 0 <= i < |raws| :: raws[i].exec.memoryKb <= peak)
    && (peak == base || exists i :: 0 <= i < |raws| && peak == raws[i].exec.memoryKb)
  }

  /** `verdict` is that of the first failing entry, or Accepted. */
  predicate IsFirstFailure(raws: seq<Raw>, verdict: JudgeVerdict) {
    if forall i | 0 <= i < |raws| :: raws[i].verdict == Accepted then verdict == Accepted
    else exists i :: 0 <= i < |raws| && raws[i].verdict == verdict != Accepted
                     && forall j | 0 <= j < i :: raws[j].verdict == Accepted
  }

  predicate Lists(tests: seq<TestResult>, raws: seq<Raw>) {
    |tests| == |raws| && forall i | 0 <= i < |raws| :: tests[i] == ToTestResult(raws[i])
  }

  lemma PeakStep(base: nat, raws: seq<Raw>, peak: nat)
    requires raws != [] && IsPeak(base, raws[..|raws| - 1], peak)
    ensures IsPeak(base, raws, Max(peak, raws[|raws| - 1].exec.memoryKb))
  {
  }

  lemma FirstFailureStep(raws: seq<Raw>, verdict: JudgeVerdict)
    requires raws != [] && IsFirstFailure(raws[..|raws| - 1], verdict)
    ensures IsFirstFailure(raws, if verdict == Accepted then raws[|raws| - 1].verdict else verdict)
  {
  }

  /** The result sums up the entries. */
  predicate SumsUp(base: JobResult, raws: seq<Raw>, r: JobResult) {
    && r.totalCpuTimeMs == base.totalCpuTimeMs + TotalCpu(raws) && r.compileOutput == base.compileOutput
    && IsPeak(base.peakMemoryKb, raws, r.peakMemoryKb)
    && Lists(r.tests, raws) && IsFirstFailure(raws, r.verdict)
  }

  lemma AddSumsUp(base: JobResult, raws: seq<Raw>, r: JobResult)
    requires raws != [] && SumsUp(base, raws[..|raws| - 1], r)
    ensures SumsUp(base, raws, Add(r, raws[|raws| - 1]))
  {
    PeakStep(base.peakMemoryKb, raws, r.peakMemoryKb);
    FirstFailureStep(raws, r.verdict);
  }

  lemma {:induction false} FoldComputes(base: JobResult, raws: seq<Raw>)
    requires base.verdict == Accepted && base.tests == []
    ensures SumsUp(base, raws, Fold(base, raws))
  {
    if raws != [] {
      FoldComputes(base, raws[..|raws| - 1]);
      AddSumsUp(base, raws, Fold(base, raws[..|raws| - 1]));
    }
  }

  /** The sum of the CPU times, the peak memory, the listed tests and the first failure's verdict of the
      sorted entries. */
  lemma JudgeComputes(base: JobResult, raws: seq<Raw>)
    requires base.verdict == Accepted && base.tests == []
    ensures SumsUp(base, SortByIndex(raws), Judge(base, raws))
  {
    var sorted := SortByIndex(raws);
    FoldComputes(base, sorted);
    var r := Fold(base, sorted);
    if AllAccepted(r.tests) {
      forall i | 0 <= i < |sorted| ensures sorted[i].verdict == Accepted {
        assert r.tests[i].status == Accepted;
      }
    }
  }

  // ----- what the result says about the runs -----

  lemma {:induction false} CollectsRaws(job: Job, runs: Runs, order: seq<nat>)
    requires Fits(job, runs, order) && Collect(job, runs, order).Success?
    ensures var raws := Collect(job, runs, order).value;
            && |raws| <= |order|
            && forall k | 0 <= k < |raws| :: runs[order[k]].Success? && raws[k] == RawOf(job, runs, order[k])
    decreases |order|
  {
    if order != [] && !(job.stopOnFirstFail && RawOf(job, runs, order[0]).verdict != Accepted) {
      CollectsRaws(job, runs, order[1..]);
    }
  }

  lemma SortedFromRaws(raws: seq<Raw>, k: nat)
    requires DistinctIndices(raws) && k < |SortByIndex(raws)|
    ensures exists j :: 0 <= j < |raws| && raws[j] == SortByIndex(raws)[k]
  {
    SortSorts(raws);
    assert SortByIndex(raws)[k] in multiset(SortByIndex(raws));
    assert SortByIndex(raws)[k] in raws;
  }

  /** The listed test has the index, numbers and output of its run, and the verdict on it. */
  predicate Reports(t: TestResult, job: Job, runs: Runs) {
    && t.index < |runs| == |job.tests| && runs[t.index].Success?
    && var run := runs[t.index].value;
       t == TestResult(t.index, VerdictOf(run, job.tests[t.index], job.limits), run.cpuTimeMs, run.memoryKb,
                       run.stdout, run.stderr)
  }

  predicate AllReport(tests: seq<TestResult>, job: Job, runs: Runs) {
    forall i | 0 <= i < |tests| :: Reports(tests[i], job, runs)
  }

  /** The CPU time of the runs of the listed tests. */
  function CpuOf(tests: seq<TestResult>, job: Job, runs: Runs): nat
    requires AllReport(tests, job, runs)
  {
    if tests == [] then 0
    else CpuOf(tests[..|tests| - 1], job, runs) + runs[tests[|tests| - 1].index].value.cpuTimeMs
  }

  /** `peak` is the largest of the base and the memory of the listed tests' runs. */
  predicate IsPeakOf(base: nat, tests: seq<TestResult>, job: Job, runs: Runs, peak: nat)
    requires AllReport(tests, job, runs)
  {
    && base <= peak && (forall i | 0 <= i < |tests| :: runs[tests[i].index].value.memoryKb <= peak)
    && (peak == base || exists i :: 0 <= i < |tests| && peak == runs[tests[i].index].value.memoryKb)
  }

  /** The job's verdict is that of the first listed test that failed, or Accepted. */
  predicate IsFirstFailing(tests: seq<TestResult>, verdict: JudgeVerdict) {
    if AllAccepted(tests) then verdict == Accepted
    else exists i :: 0 <= i < |tests| && tests[i].status == verdict != Accepted
                     && forall j | 0 <= j < i :: tests[j].status == Accepted
  }

  /** The entries are those of the runs with their indices. */
  predicate FromRuns(raws: seq<Raw>, job: Job, runs: Runs) {
    && |runs| == |job.tests|
    && forall k | 0 <= k < |raws| ::
         raws[k].index < |runs| && runs[raws[k].index].Success? && raws[k].exec == runs[raws[k].index].value
         && raws[k].verdict == VerdictOf(raws[k].exec, job.tests[raws[k].index], job.limits)
  }

  lemma ListedReports(raws: seq<Raw>, tests: seq<TestResult>, job: Job, runs: Runs)
    requires FromRuns(raws, job, runs) && Lists(tests, raws)
    ensures AllReport(tests, job, runs) && forall k | 0 <= k < |raws| :: tests[k].index == raws[k].index
  {
  }

  lemma {:induction false} SameCpu(raws: seq<Raw>, tests: seq<TestResult>, job: Job, runs: Runs)
    requires FromRuns(raws, job, runs) && Lists(tests, raws) && AllReport(tests, job, runs)
    ensures TotalCpu(raws) == CpuOf(tests, job, runs)
  {
    if raws != [] {
      SameCpu(raws[..|raws| - 1], tests[..|tests| - 1], job, runs);
    }
  }

  lemma SamePeak(base: nat, raws: seq<Raw>, tests: seq<TestResult>, job: Job, runs: Runs, peak: nat)
    requires FromRuns(raws, job, runs) && Lists(tests, raws) && AllReport(tests, job, runs)
    requires IsPeak(base, raws, peak)
    ensures IsPeakOf(base, tests, job, runs, peak)
  {
    ListedReports(raws, tests, job, runs);
    if i :| 0 <= i < |raws| && peak == raws[i].exec.memoryKb {
      assert peak == runs[tests[i].index].value.memoryKb;
    }
  }

  lemma SameVerdict(raws: seq<Raw>, tests: seq<TestResult>, verdict: JudgeVerdict)
    requires Lists(tests, raws) && IsFirstFailure(raws, verdict)
    ensures IsFirstFailing(tests, verdict)
  {
    assert forall k | 0 <= k < |raws| :: tests[k].status == raws[k].verdict;
  }

  lemma SortedAreRuns(job: Job, runs: Runs, order: seq<nat>)
    requires Fits(job, runs, order) && Distinct(order) && Collect(job, runs, order).Success?
    ensures var sorted := SortByIndex(Collect(job, runs, order).value);
            FromRuns(sorted, job, runs) && Increasing(sorted)
  {
    var raws := Collect(job, runs, order).value;
    CollectsRaws(job, runs, order);
    SortSorts(raws);
    var sorted := SortByIndex(raws);
    forall k | 0 <= k < |sorted| ensures exists j :: 0 <= j < |raws| && raws[j] == sorted[k] {
      SortedFromRaws(raws, k);
    }
  }

  /** The result is that of the listed tests: they have increasing indices, and each has the verdict, CPU
      time, memory and output of the run with its index; the total is the compile time plus their CPU
      times, the peak the largest memory, and the verdict that of the first listed failure. */
  predicate Summarizes(r: JobResult, base: JobResult, job: Job, runs: Runs) {
    && AllReport(r.tests, job, runs)
    && (forall i, j | 0 <= i < j < |r.tests| :: r.tests[i].index < r.tests[j].index)
    && r.totalCpuTimeMs == base.totalCpuTimeMs + CpuOf(r.tests, job, runs)
    && IsPeakOf(base.peakMemoryKb, r.tests, job, runs, r.peakMemoryKb)
    && IsFirstFailing(r.tests, r.verdict) && r.compileOutput == base.compileOutput
  }

  lemma JudgeSummarizes(job: Job, runs: Runs, base: JobResult, raws: seq<Raw>)
    requires base.verdict == Accepted && base.tests == []
    requires FromRuns(SortByIndex(raws), job, runs) && Increasing(SortByIndex(raws))
    ensures Summarizes(Judge(base, raws), base, job, runs)
  {
    var sorted, r := SortByIndex(raws), Judge(base, raws);
    JudgeComputes(base, raws);
    ListedReports(sorted, r.tests, job, runs);
    SameCpu(sorted, r.tests, job, runs);
    SamePeak(base.peakMemoryKb, sorted, r.tests, job, runs, r.peakMemoryKb);
    SameVerdict(sorted, r.tests, r.verdict);
  }

  /** What run_tests reports, for every order of completions, with or without stop-on-fail. */
  lemma ResultReportsRuns(job: Job, runs: Runs, order: seq<nat>, base: JobResult)
    requires Fits(job, runs, order) && Distinct(order) && base.verdict == Accepted && base.tests == []
    requires Evaluate(job, runs, order, base).Success?
    ensures Summarizes(Evaluate(job, runs, order, base).value, base, job, runs)
  {
    SortedAreRuns(job, runs, order);
    JudgeSummarizes(job, runs, base, Collect(job, runs, order).value);
  }

  // ----- schedule independence -----

  /** The completions in test order, the reference that knows no schedule. */
  function InOrder(job: Job, runs: Runs): seq<Raw>
    requires |runs| == |job.tests| && forall i | 0 <= i < |runs| :: runs[i].Success?
  {
    seq(|runs|, i requires 0 <= i < |runs| => RawOf(job, runs, i))
  }

  lemma {:induction false} CollectAll(job: Job, runs: Runs, order: seq<nat>)
    requires Fits(job, runs, order) && !job.stopOnFirstFail && forall i | 0 <= i < |runs| :: runs[i].Success?
    ensures var raws := seq(|order|, k requires 0 <= k < |order| => RawOf(job, runs, order[k]));
            Collect(job, runs, order) == Success(raws)
    decreases |order|
  {
    var raws := seq(|order|, k requires 0 <= k < |order| => RawOf(job, runs, order[k]));
    if order != [] {
      CollectAll(job, runs, order[1..]);
      assert raws == [RawOf(job, runs, order[0])] + Collect(job, runs, order[1..]).value;
    }
  }

  lemma {:induction false} SortRestoresOrder(job: Job, runs: Runs, order: seq<nat>, raws: seq<Raw>)
    requires Fits(job, runs, order) && IsPermutation(order, |runs|) && forall i | 0 <= i < |runs| :: runs[i].Success?
    requires |raws| == |order| && forall k | 0 <= k < |order| :: raws[k] == RawOf(job, runs, order[k])
    ensures SortByIndex(raws) == InOrder(job, runs)
  {
    var sorted := SortByIndex(raws);
    SortSorts(raws);
    assert |sorted| == |multiset(sorted)| == |multiset(raws)| == |raws|;
    forall k | 0 <= k < |sorted|
      ensures sorted[k].index < |runs| && sorted[k] == RawOf(job, runs, sorted[k].index)
    {
      assert sorted[k] in multiset(sorted);
      assert sorted[k] in raws;
    }
    forall k | 0 <= k < |sorted| ensures sorted[k] == InOrder(job, runs)[k] {
      IncreasingIsIdentity(sorted, k);
    }
  }

  /** The CPU time of the first n runs. */
  function CpuBelow(runs: Runs, n: nat): nat
    requires n <= |runs| && forall i | 0 <= i < n :: runs[i].Success?
  {
    if n == 0 then 0 else CpuBelow(runs, n - 1) + runs[n - 1].value.cpuTimeMs
  }

  lemma {:induction false} CpuOfAll(tests: seq<TestResult>, job: Job, runs: Runs, n: nat)
    requires AllReport(tests, job, runs) && (forall i | 0 <= i < |tests| :: tests[i].index == i) && n <= |tests|
    requires |tests| <= |runs| && forall i | 0 <= i < |runs| :: runs[i].Success?
    ensures CpuOf(tests[..n], job, runs) == CpuBelow(runs, n)
  {
    if n > 0 {
      CpuOfAll(tests, job, runs, n - 1);
      assert tests[..n][..n - 1] == tests[..n - 1];
    }
  }

  /** Schedule independence: without stop-on-fail and without a sandbox error, whatever order the tests
      complete in, the job's result is the one computed from the tests in order: all tests listed by
      index with what their runs returned, the verdict of the lowest failing index or Accepted, the
      compile time plus the sum of all CPU times, and the largest memory. */
  lemma ScheduleIndependence(job: Job, runs: Runs, order: seq<nat>, base: JobResult)
    requires |runs| == |job.tests| && IsPermutation(order, |runs|)
    requires !job.stopOnFirstFail && base.verdict == Accepted && base.tests == []
    requires forall i | 0 <= i < |runs| :: runs[i].Success?
    ensures Evaluate(job, runs, order, base) == Success(Judge(base, InOrder(job, runs)))
    ensures var r := Judge(base, InOrder(job, runs));
            && Summarizes(r, base, job, runs) && |r.tests| == |runs|
            && (forall i | 0 <= i < |runs| :: r.tests[i].index == i)
            && r.totalCpuTimeMs == base.totalCpuTimeMs + CpuBelow(runs, |runs|)
  {
    CollectAll(job, runs, order);
    var raws := Collect(job, runs, order).value;
    SortRestoresOrder(job, runs, order, raws);
    InOrderIsSorted(job, runs);
    InOrderIsRuns(job, runs);
    AllInOrder(job, runs, base, InOrder(job, runs));
  }

  lemma InOrderIsSorted(job: Job, runs: Runs)
    requires |runs| == |job.tests| && forall i | 0 <= i < |runs| :: runs[i].Success?
    ensures SortByIndex(InOrder(job, runs)) == InOrder(job, runs)
  {
    SortRestoresOrder(job, runs, seq(|runs|, i => i), InOrder(job, runs));
  }

  lemma InOrderIsRuns(job: Job, runs: Runs)
    requires |runs| == |job.tests| && forall i | 0 <= i < |runs| :: runs[i].Success?
    ensures FromRuns(InOrder(job, runs), job, runs) && Increasing(InOrder(job, runs))
    ensures forall i | 0 <= i < |runs| :: InOrder(job, runs)[i].index == i
  {
  }

  lemma AllAreListed(job: Job, runs: Runs, tests: seq<TestResult>, raws: seq<Raw>)
    requires FromRuns(raws, job, runs) && Lists(tests, raws) && AllReport(tests, job, runs)
    requires |raws| == |runs| && forall i | 0 <= i < |runs| :: runs[i].Success? && raws[i].index == i
    ensures |tests| == |runs| && forall i | 0 <= i < |runs| :: tests[i].index == i
    ensures CpuOf(tests, job, runs) == CpuBelow(runs, |runs|)
  {
    ListedReports(raws, tests, job, runs);
    CpuOfAll(tests, job, runs, |runs|);
    assert tests[..|runs|] == tests;
  }

  lemma AllInOrder(job: Job, runs: Runs, base: JobResult, raws: seq<Raw>)
    requires base.verdict == Accepted && base.tests == []
    requires SortByIndex(raws) == raws && FromRuns(raws, job, runs) && Increasing(raws)
    requires |raws| == |runs| && forall i | 0 <= i < |runs| :: runs[i].Success? && raws[i].index == i
    ensures var r := Judge(base, raws);
            && Summarizes(r, base, job, runs) && |r.tests| == |runs|
            && (forall i | 0 <= i < |runs| :: r.tests[i].index == i)
            && r.totalCpuTimeMs == base.totalCpuTimeMs + CpuBelow(runs, |runs|)
  {
    JudgeSummarizes(job, runs, base, raws);
    JudgeComputes(base, raws);
    AllAreListed(job, runs, Judge(base, raws).tests, raws);
  }

  /** The same, over every schedule of every window that runs to its end. */
  lemma EveryScheduleAgrees(job: Job, runs: Runs, ws: seq<Window>, ms: seq<Move>, window: nat, base: JobResult)
    requires |runs| == |job.tests| && Schedule(ws, ms, |runs|, window)
    requires ws[|ms|].next == |runs| && ws[|ms|].inFlight == {}
    requires !job.stopOnFirstFail && base.verdict == Accepted && base.tests == []
    requires forall i | 0 <= i < |runs| :: runs[i].Success?
    ensures Fits(job, runs, ws[|ms|].done)
    ensures Evaluate(job, runs, ws[|ms|].done, base) == Success(Judge(base, InOrder(job, runs)))
  {
    CompleteSchedule(ws, ms, |runs|, window);
    ScheduleIndependence(job, runs, ws[|ms|].done, base);
  }

  lemma {:induction false} CollectFailsIff(job: Job, runs: Runs, order: seq<nat>)
    requires Fits(job, runs, order) && !job.stopOnFirstFail
    ensures Collect(job, runs, order).Failure? <==> exists k :: 0 <= k < |order| && runs[order[k]].Failure?
    ensures Collect(job, runs, order).Failure? ==>
              exists k :: 0 <= k < |order| && runs[order[k]] == Failure(Collect(job, runs, order).error)
    decreases |order|
  {
    if order != [] {
      CollectFailsIff(job, runs, order[1..]);
      assert forall k | 0 <= k < |order| :: order[k] == if k == 0 then order[0] else order[1..][k - 1];
    }
  }

  /** Without stop-on-fail, whether the job ends in a sandbox error does not depend on the order
      either: it does exactly if the sandbox failed for some test, and reports such an error. */
  lemma SandboxErrorIff(job: Job, runs: Runs, order: seq<nat>, base: JobResult)
    requires |runs| == |job.tests| && IsPermutation(order, |runs|) && !job.stopOnFirstFail
    ensures Evaluate(job, runs, order, base).Failure? <==> exists i :: 0 <= i < |runs| && runs[i].Failure?
    ensures Evaluate(job, runs, order, base).Failure? ==>
              exists i :: 0 <= i < |runs| && runs[i].Failure?
                && Evaluate(job, runs, order, base).error == "Sandbox error during execution: " + runs[i].error
  {
    CollectFailsIff(job, runs, order);
    if i :| 0 <= i < |runs| && runs[i].Failure? {
      PermutationCovers(order, |runs|, i);
    }
  }

  // ----- stop on first failure -----

  lemma {:induction false} CollectStops(job: Job, runs: Runs, order: seq<nat>)
    requires Fits(job, runs, order) && job.stopOnFirstFail && Distinct(order)
    requires Collect(job, runs, order).Success?
    ensures var raws := Collect(job, runs, order).value;
            && |raws| <= |order| && (forall k | 0 <= k < |raws| :: raws[k].index == order[k])
            && (forall k | 0 <= k < |raws| - 1 :: raws[k].verdict == Accepted)
            && ((forall k | 0 <= k < |raws| :: raws[k].verdict == Accepted) ==> |raws| == |order|)
    decreases |order|
  {
    if order != [] {
      var raw := RawOf(job, runs, order[0]);
      if raw.verdict == Accepted {
        CollectStops(job, runs, order[1..]);
        var rest := Collect(job, runs, order[1..]).value;
        assert Collect(job, runs, order).value == [raw] + rest;
        assert forall k | 0 <= k < |rest| :: ([raw] + rest)[k + 1] == rest[k];
      }
    }
  }

  /** At most the last completion failed, so sorting leaves at most one failure. */
  lemma {:induction false} OneFailureAfterSort(raws: seq<Raw>)
    requires DistinctIndices(raws) && forall k | 0 <= k < |raws| - 1 :: raws[k].verdict == Accepted
    ensures var sorted := SortByIndex(raws);
            && |sorted| == |raws| && Increasing(sorted)
            && (forall i, j | 0 <= i < |sorted| && 0 <= j < |sorted| ::
                  sorted[i].verdict != Accepted && sorted[j].verdict != Accepted ==> i == j)
            && ((forall i | 0 <= i < |sorted| :: sorted[i].verdict == Accepted) ==>
                  forall k | 0 <= k < |raws| :: raws[k].verdict == Accepted)
  {
    SortSorts(raws);
    var sorted := SortByIndex(raws);
    assert |sorted| == |multiset(sorted)| == |multiset(raws)| == |raws|;
    forall i | 0 <= i < |sorted| && sorted[i].verdict != Accepted ensures sorted[i] == raws[|raws| - 1] {
      assert sorted[i] in multiset(sorted);
      assert sorted[i] in raws;
    }
    forall k | 0 <= k < |raws| ensures raws[k] in sorted {
      assert raws[k] in multiset(raws);
      assert raws[k] in multiset(sorted);
    }
  }

  lemma OnlyFailureIsFirst(raws: seq<Raw>, verdict: JudgeVerdict, i: nat)
    requires IsFirstFailure(raws, verdict) && i < |raws| && raws[i].verdict != Accepted
    requires forall j | 0 <= j < |raws| :: raws[j].verdict != Accepted ==> j == i
    ensures verdict == raws[i].verdict
  {
  }

  /** With stop-on-fail, for every completion order without a sandbox error: the listed tests have
      strictly increasing indices, at most one of them failed, and the job's verdict is that one's. The
      job is Accepted exactly if all tests ran and were Accepted. */
  lemma StopOnFirstFail(job: Job, runs: Runs, order: seq<nat>, base: JobResult)
    requires |runs| == |job.tests| && IsPermutation(order, |runs|)
    requires job.stopOnFirstFail && base.verdict == Accepted && base.tests == []
    requires Evaluate(job, runs, order, base).Success?
    ensures var r := Evaluate(job, runs, order, base).value;
            && (forall i, j | 0 <= i < j < |r.tests| :: r.tests[i].index < r.tests[j].index)
            && (forall i, j | 0 <= i < |r.tests| && 0 <= j < |r.tests| ::
                  r.tests[i].status != Accepted && r.tests[j].status != Accepted ==> i == j)
            && (forall i | 0 <= i < |r.tests| :: r.tests[i].status != Accepted ==> r.verdict == r.tests[i].status)
            && (r.verdict == Accepted <==> |r.tests| == |job.tests| && AllAccepted(r.tests))
  {
    var raws := Collect(job, runs, order).value;
    CollectStops(job, runs, order);
    OneFailureAfterSort(raws);
    JudgeComputes(base, raws);
    OneFailureListed(SortByIndex(raws), Judge(base, raws).tests, Judge(base, raws).verdict);
  }

  lemma OneFailureListed(sorted: seq<Raw>, tests: seq<TestResult>, verdict: JudgeVerdict)
    requires Lists(tests, sorted) && IsFirstFailure(sorted, verdict) && Increasing(sorted)
    requires forall i, j | 0 <= i < |sorted| && 0 <= j < |sorted| ::
               sorted[i].verdict != Accepted && sorted[j].verdict != Accepted ==> i == j
    ensures forall i, j | 0 <= i < j < |tests| :: tests[i].index < tests[j].index
    ensures forall i, j | 0 <= i < |tests| && 0 <= j < |tests| ::
              tests[i].status != Accepted && tests[j].status != Accepted ==> i == j
    ensures forall i | 0 <= i < |tests| :: tests[i].status != Accepted ==> verdict == tests[i].status
    ensures verdict == Accepted <==> AllAccepted(tests)
  {
    assert forall i | 0 <= i < |sorted| :: tests[i] == ToTestResult(sorted[i]);
    forall i | 0 <= i < |sorted| && sorted[i].verdict != Accepted ensures verdict == sorted[i].verdict {
      OnlyFailureIsFirst(sorted, verdict, i);
    }
  }

  predicate Passes(job: Job, runs: Runs, i: nat)
    requires |runs| == |job.tests| && i < |runs|
  {
    runs[i].Success? && VerdictOf(runs[i].value, job.tests[i], job.limits) == Accepted
  }

  /** All tests of the order before its p-th passed. */
  predicate PassedBefore(job: Job, runs: Runs, order: seq<nat>, p: nat)
    requires Fits(job, runs, order) && p <= |order|
  {
    forall k | 0 <= k < p :: Passes(job, runs, order[k])
  }

  lemma {:induction false} CollectEnds(job: Job, runs: Runs, order: seq<nat>, p: nat)
    requires Fits(job, runs, order) && job.stopOnFirstFail && p <= |order| && PassedBefore(job, runs, order, p)
    requires p < |order| ==> !Passes(job, runs, order[p])
    ensures Collect(job, runs, order).Failure? <==> p < |order| && runs[order[p]].Failure?
    ensures Collect(job, runs, order).Success? ==>
              |Collect(job, runs, order).value| == if p < |order| then p + 1 else p
    decreases |order|
  {
    if p > 0 {
      assert Passes(job, runs, order[0]);
      assert forall k | 0 <= k < p - 1 :: Passes(job, runs, order[1..][k]) by {
        assert forall k | 0 <= k < p - 1 :: order[1..][k] == order[k + 1] && Passes(job, runs, order[k + 1]);
      }
      CollectEnds(job, runs, order[1..], p - 1);
    }
  }

  predicate ListsTest(tests: seq<TestResult>, i: nat) {
    exists t :: t in tests && t.index == i
  }

  lemma ListedIndices(raws: seq<Raw>, tests: seq<TestResult>, i: nat)
    requires DistinctIndices(raws) && Lists(tests, SortByIndex(raws))
    ensures ListsTest(tests, i) <==> exists k :: 0 <= k < |raws| && raws[k].index == i
  {
    SortSorts(raws);
    var sorted := SortByIndex(raws);
    assert |sorted| == |multiset(sorted)| == |multiset(raws)| == |raws|;
    if t :| t in tests && t.index == i {
      var j :| 0 <= j < |tests| && tests[j] == t;
      SortedFromRaws(raws, j);
    }
    if k :| 0 <= k < |raws| && raws[k].index == i {
      assert raws[k] in multiset(sorted);
      var j :| 0 <= j < |sorted| && sorted[j] == raws[k];
      assert tests[j] in tests && tests[j].index == i;
    }
  }

  /** With stop-on-fail, p being the first completion that did not pass: the job ends in a sandbox error
      exactly if its sandbox failed, and otherwise lists exactly the tests that completed up to it. */
  lemma StopsThere(job: Job, runs: Runs, order: seq<nat>, base: JobResult, p: nat)
    requires |runs| == |job.tests| && IsPermutation(order, |runs|) && p <= |order|
    requires job.stopOnFirstFail && base.verdict == Accepted && base.tests == []
    requires PassedBefore(job, runs, order, p) && (p < |order| ==> !Passes(job, runs, order[p]))
    ensures Evaluate(job, runs, order, base).Failure? <==> p < |order| && runs[order[p]].Failure?
    ensures Evaluate(job, runs, order, base).Success? ==>
              forall i: nat :: ListsTest(Evaluate(job, runs, order, base).value.tests, i)
                          <==> i in order[..Min(p + 1, |order|)]
  {
    CollectEnds(job, runs, order, p);
    if Evaluate(job, runs, order, base).Success? {
      var raws := Collect(job, runs, order).value;
      CollectStops(job, runs, order);
      JudgeComputes(base, raws);
      ListsCollected(raws, Judge(base, raws).tests, order[..Min(p + 1, |order|)]);
    }
  }

  lemma ListsCollected(raws: seq<Raw>, tests: seq<TestResult>, order: seq<nat>)
    requires DistinctIndices(raws) && Lists(tests, SortByIndex(raws))
    requires |raws| == |order| && forall k | 0 <= k < |raws| :: raws[k].index == order[k]
    ensures forall i: nat :: ListsTest(tests, i) <==> i in order
  {
    forall i: nat ensures ListsTest(tests, i) <==> i in order {
      ListedIndices(raws, tests, i);
    }
  }

  // ----- execute -----

  const NO_RESULT := JobResult(Accepted, 0, 0, None, [])

  /** The compile phase: a failed sandbox ends the job, a failed compiler is its verdict, and otherwise
      the tests start from the compiler's CPU time and memory. */
  method Execute(job: Job, compiled: Option<Result<S.ExecutionResult, string>>, runs: Runs, order: seq<nat>)
    returns (r: Result<JobResult, string>)
    requires Fits(job, runs, order)
    ensures compiled.None? ==> r == Evaluate(job, runs, order, NO_RESULT)
    ensures compiled.Some? && compiled.value.Failure? ==>
              r == Failure("Sandbox error during compilation: " + compiled.value.error)
    ensures compiled.Some? && compiled.value.Success? && !compiled.value.value.status.Ok? ==>
              r == Success(JobResult(CompilationError, 0, 0, Some(compiled.value.value.stderr), []))
    ensures compiled.Some? && compiled.value.Success? && compiled.value.value.status.Ok? ==>
              var compile := compiled.value.value;
              r == Evaluate(job, runs, order, JobResult(Accepted, compile.cpuTimeMs, compile.memoryKb, None, []))
  {
    var result := NO_RESULT;
    if compiled.Some? {
      if compiled.value.Failure? {
        return Failure("Sandbox error during compilation: " + compiled.value.error);
      }
      var compile := compiled.value.value;
      if !compile.status.Ok? {
        return Success(result.(verdict := CompilationError, compileOutput := Some(compile.stderr)));
      }
      result := result.(totalCpuTimeMs := result.totalCpuTimeMs + compile.cpuTimeMs,
                        peakMemoryKb := Max(result.peakMemoryKb, compile.memoryKb));
    }
    r := RunTests(job, runs, order, result);
  }
}
