/**
  The timeline routes: fetching one step of a traced timeline (`get_execution_step`),
  summarising a timeline's mock metrics (`_extract_algorithm_metrics`, `_compare_space_usage`)
  and comparing two programs by those summaries (`compare_algorithms`).

  Each request traces its code afresh with a new `ExecutionTracer`; `parsed` stands for
  what `ast.parse` makes of the code.
*/
module DsAnalysisRoutes {
  import opened Results
  import opened PyText
  import opened PyAst
  import opened DsAnalyzer
  import opened DsTracer

  /** The reply of `get_execution_step`. */
  datatype StepView = StepView(step: Step, totalSteps: nat, hasNext: bool, hasPrev: bool)

  /** The dict `_extract_algorithm_metrics` returns. */
  datatype AlgorithmMetrics = AlgorithmMetrics(
    totalComparisons: nat,
    totalSwaps: nat,
    executionSteps: nat,
    timeComplexity: string,
    spaceComplexity: string)

  /** One side of the reply of `compare_algorithms`. */
  datatype AlgorithmReport = AlgorithmReport(executionTimeline: seq<Step>, metrics: AlgorithmMetrics, totalSteps: nat)

  /** The `comparison` part of the reply of `compare_algorithms`. */
  datatype Comparison = Comparison(fasterAlgorithm: string, efficiencyRatio: real, spaceComparison: string)

  datatype ComparisonReport = ComparisonReport(algorithmA: AlgorithmReport, algorithmB: AlgorithmReport, comparison: Comparison)

  const InvalidStep := HttpError(400, "Invalid step number")
  const MissingCode := HttpError(400, "Both code samples are required for comparison")
  const StepErrorPrefix := "Execution step error: "
  const ComparisonErrorPrefix := "Algorithm comparison error: "

  /** The label `_extract_algorithm_metrics` gives more than 100 comparisons. */
  const QuadraticLabel := "O(n\U{B2})"

  /** The space label both sides default to. */
  const ConstantSpace := "O(1)"

  // ---------------------------------------------------------------- step lookup

  /** The bounds check and navigation flags of `get_execution_step`, on a traced timeline. */
  function LookupStep(timeline: seq<Step>, n: int): (r: Result<StepView, HttpError>)
    ensures r.Failure? <==> n < 0 || n >= |timeline|
    ensures r.Failure? ==> r.error == InvalidStep
    ensures r.Success? ==> r.value.step == timeline[n] && r.value.totalSteps == |timeline|
  {
    if n < 0 || n >= |timeline| then Failure(InvalidStep)
    else Success(StepView(timeline[n], |timeline|, n < |timeline| - 1, n > 0))
  }

  /**
    `hasNext` and `hasPrev` say exactly whether the neighbouring request would succeed, and
    a valid step has neither neighbour only in a one-step timeline.
  */
  lemma StepNavigation(timeline: seq<Step>, n: int)
    requires LookupStep(timeline, n).Success?
    ensures var v := LookupStep(timeline, n).value;
      && (v.hasNext <==> LookupStep(timeline, n + 1).Success?)
      && (v.hasPrev <==> LookupStep(timeline, n - 1).Success?)
      && (v.hasNext ==> LookupStep(timeline, n + 1).value.hasPrev)
      && (v.hasPrev ==> LookupStep(timeline, n - 1).value.hasNext)
      && (!v.hasNext && !v.hasPrev <==> |timeline| == 1)
  {
  }

  /**
    `get_execution_step`: traces `code` and returns step `stepNumber`. A trace error becomes
    a 500 carrying its message; the 400 for a bad index passes through unchanged.
  */
  method GetExecutionStep(code: string, parsed: Result<seq<WalkNode>, string>, stepNumber: int)
    returns (r: Result<StepView, HttpError>)
    ensures parsed.Failure? ==>
      r == Failure(HttpError(500, StepErrorPrefix + (TraceErrorPrefix + (AnalyzeErrorPrefix + parsed.error))))
    ensures parsed.Success? ==>
      var kept := Kept(SourceLines(code));
      && (r.Failure? <==> stepNumber < 0 || stepNumber >= |kept|)
      && (r.Failure? ==> r.error == InvalidStep)
      && (r.Success? ==>
        && r.value.step == MakeStep(stepNumber, kept[stepNumber], r.value.step.dsState.arrays)
        && r.value.totalSteps == |kept|
        && (r.value.hasNext <==> stepNumber < |kept| - 1)
        && (r.value.hasPrev <==> stepNumber > 0)
        && r.value.step.dsState.arrays.entries == Replay(kept))
  {
    var tracer := new ExecutionTracer();
    var result := tracer.TraceExecution(code, parsed);
    if result.Failure? {
      return Failure(HttpError(500, StepErrorPrefix + result.error));
    }
    var timeline := result.value.executionTimeline;
    r := LookupStep(timeline, stepNumber);
    if r.Success? {
      StepsForIndex(Kept(SourceLines(code)), timeline[0].dsState.arrays, stepNumber);
    }
  }

  // ---------------------------------------------------------------- metrics

  function Max(a: nat, b: nat): nat
  {
    if a < b then b else a
  }

  /** The running maximum of the steps' `comparisons`, from 0. */
  function MaxComparisons(timeline: seq<Step>): nat
  {
    if timeline == [] then 0
    else Max(MaxComparisons(timeline[..|timeline| - 1]), timeline[|timeline| - 1].metrics.comparisons)
  }

  /** The running maximum of the steps' `swaps`, from 0. */
  function MaxSwaps(timeline: seq<Step>): nat
  {
    if timeline == [] then 0
    else Max(MaxSwaps(timeline[..|timeline| - 1]), timeline[|timeline| - 1].metrics.swaps)
  }

  /** What `_extract_algorithm_metrics` reports for a timeline. */
  function ExtractedMetrics(timeline: seq<Step>): AlgorithmMetrics
  {
    var comparisons := MaxComparisons(timeline);
    var maxMemory := 0;
    AlgorithmMetrics(comparisons, MaxSwaps(timeline), |timeline|,
      if comparisons > 100 then QuadraticLabel else "O(n log n)",
      if maxMemory < 10 then ConstantSpace else "O(n)")
  }

  /** `_extract_algorithm_metrics`: one pass keeping the largest counts seen so far. */
  method ExtractAlgorithmMetrics(timeline: seq<Step>) returns (m: AlgorithmMetrics)
    ensures m == ExtractedMetrics(timeline)
  {
    var totalComparisons: nat := 0;
    var totalSwaps: nat := 0;
    var maxMemory := 0;
    for i := 0 to |timeline|
      invariant totalComparisons == MaxComparisons(timeline[..i])
      invariant totalSwaps == MaxSwaps(timeline[..i])
    {
      assert timeline[..i + 1][..i] == timeline[..i];
      var metrics := timeline[i].metrics;
      totalComparisons := Max(totalComparisons, metrics.comparisons);
      totalSwaps := Max(totalSwaps, metrics.swaps);
    }
    assert timeline[..|timeline|] == timeline;
    m := AlgorithmMetrics(totalComparisons, totalSwaps, |timeline|,
      if totalComparisons > 100 then QuadraticLabel else "O(n log n)",
      if maxMemory < 10 then ConstantSpace else "O(n)");
  }

  /**
    The totals are the largest counts of any step (0 for an empty timeline), the step count
    is the timeline's length, the time label is quadratic exactly above 100 comparisons,
    and the space label is always constant.
  */
  lemma {:induction false} MetricsAreMaxima(timeline: seq<Step>)
    ensures var m := ExtractedMetrics(timeline);
      && (forall i :: 0 <= i < |timeline| ==>
        timeline[i].metrics.comparisons <= m.totalComparisons && timeline[i].metrics.swaps <= m.totalSwaps)
      && (timeline == [] ==> m.totalComparisons == 0 && m.totalSwaps == 0)
      && (timeline != [] ==>
        && (exists i :: 0 <= i < |timeline| && timeline[i].metrics.comparisons == m.totalComparisons)
        && (exists i :: 0 <= i < |timeline| && timeline[i].metrics.swaps == m.totalSwaps))
      && m.executionSteps == |timeline|
      && (m.timeComplexity == QuadraticLabel <==> m.totalComparisons > 100)
      && m.spaceComplexity == ConstantSpace
  {
    if timeline != [] {
      var init := timeline[..|timeline| - 1];
      var last := timeline[|timeline| - 1];
      MetricsAreMaxima(init);
      forall i | 0 <= i < |init|
        ensures timeline[i] == init[i]
      {
      }
      if MaxComparisons(init) <= last.metrics.comparisons {
        assert timeline[|timeline| - 1].metrics.comparisons == MaxComparisons(timeline);
      } else {
        var j :| 0 <= j < |init| && init[j].metrics.comparisons == MaxComparisons(init);
        assert timeline[j].metrics.comparisons == MaxComparisons(timeline);
      }
      if MaxSwaps(init) <= last.metrics.swaps {
        assert timeline[|timeline| - 1].metrics.swaps == MaxSwaps(timeline);
      } else {
        var j :| 0 <= j < |init| && init[j].metrics.swaps == MaxSwaps(init);
        assert timeline[j].metrics.swaps == MaxSwaps(timeline);
      }
    }
  }

  /**
    On a traced timeline of `n` steps the mock counts grow with the step number, so the
    totals are those of the last step: `2 * (n - 1)` comparisons and `(n - 1) / 2` swaps,
    and the time label turns quadratic from 52 steps on.
  */
  lemma TracedMetrics(code: string, steps: seq<Step>)
    requires Timeline(code, steps)
    ensures var m := ExtractedMetrics(steps);
      && m.totalComparisons == (if steps == [] then 0 else 2 * (|steps| - 1))
      && m.totalSwaps == (if steps == [] then 0 else (|steps| - 1) / 2)
      && (m.timeComplexity == QuadraticLabel <==> |steps| > 51)
  {
    MetricsAreMaxima(steps);
    if steps != [] {
      var kept := Kept(SourceLines(code));
      var m := ExtractedMetrics(steps);
      forall i | 0 <= i < |steps|
        ensures steps[i].metrics == CalculateMetrics(i)
      {
        StepsForIndex(kept, steps[0].dsState.arrays, i);
      }
      var j :| 0 <= j < |steps| && steps[j].metrics.comparisons == m.totalComparisons;
      var k :| 0 <= k < |steps| && steps[k].metrics.swaps == m.totalSwaps;
      assert steps[|steps| - 1].metrics == CalculateMetrics(|steps| - 1);
      assert k / 2 <= (|steps| - 1) / 2;
    }
  }

  // ---------------------------------------------------------------- comparison

  /** `_compare_space_usage`: a missing label counts as constant space. */
  function CompareSpaceUsage(spaceA: Option<string>, spaceB: Option<string>): (r: string)
    ensures StartsWith(r, "Both algorithms use ") <==> spaceA.GetOr(ConstantSpace) == spaceB.GetOr(ConstantSpace)
  {
    var a := spaceA.GetOr(ConstantSpace);
    var b := spaceB.GetOr(ConstantSpace);
    if a == b then "Both algorithms use " + a + " space"
    else
      var r := "Algorithm A uses " + a + ", Algorithm B uses " + b;
      assert r[0] == 'A';
      r
  }

  /** Each label can be read back from the sentence `_compare_space_usage` builds. */
  lemma SpaceUsageNamesBoth(spaceA: Option<string>, spaceB: Option<string>)
    ensures var a := spaceA.GetOr(ConstantSpace);
      var b := spaceB.GetOr(ConstantSpace);
      var r := CompareSpaceUsage(spaceA, spaceB);
      && (a == b ==> r[20..|r| - 6] == a)
      && (a != b ==> r[17..17 + |a|] == a && r[|r| - |b|..] == b)
  {
  }

  /** The `comparison` block: ties go to B; the ratio is B's comparisons over A's, at least 1. */
  function Compare(a: AlgorithmMetrics, b: AlgorithmMetrics): (c: Comparison)
    ensures c.fasterAlgorithm == "A" || c.fasterAlgorithm == "B"
    ensures c.fasterAlgorithm == "A" <==> a.totalComparisons < b.totalComparisons
    ensures c.efficiencyRatio * (Max(a.totalComparisons, 1) as real) == b.totalComparisons as real
  {
    Comparison(
      if a.totalComparisons < b.totalComparisons then "A" else "B",
      b.totalComparisons as real / Max(a.totalComparisons, 1) as real,
      CompareSpaceUsage(Some(a.spaceComplexity), Some(b.spaceComplexity)))
  }

  /** At most one side is faster, and swapping the sides swaps the verdict unless the counts tie. */
  lemma FasterIsStrict(a: AlgorithmMetrics, b: AlgorithmMetrics)
    ensures !(Compare(a, b).fasterAlgorithm == "A" && Compare(b, a).fasterAlgorithm == "A")
    ensures a.totalComparisons == b.totalComparisons <==>
      Compare(a, b).fasterAlgorithm == "B" && Compare(b, a).fasterAlgorithm == "B"
  {
  }

  /**
    For two traced timelines the verdict depends only on the numbers of executable lines,
    an empty program counting as one, and the space sentence is always the same.
  */
  lemma ComparisonOfTraces(codeA: string, codeB: string, stepsA: seq<Step>, stepsB: seq<Step>)
    requires Timeline(codeA, stepsA) && Timeline(codeB, stepsB)
    ensures var c := Compare(ExtractedMetrics(stepsA), ExtractedMetrics(stepsB));
      && (c.fasterAlgorithm == "A" <==> Max(|Kept(SourceLines(codeA))|, 1) < Max(|Kept(SourceLines(codeB))|, 1))
      && c.spaceComparison == "Both algorithms use O(1) space"
  {
    TracedMetrics(codeA, stepsA);
    TracedMetrics(codeB, stepsB);
    MetricsAreMaxima(stepsA);
    MetricsAreMaxima(stepsB);
    assert CompareSpaceUsage(Some(ConstantSpace), Some(ConstantSpace)) == "Both algorithms use " + ConstantSpace + " space";
  }

  /** The timeline part of `trace_execution`, the only part `compare_algorithms` reads. */
  method TimelineOf(tracer: ExecutionTracer, code: string, parsed: Result<seq<WalkNode>, string>)
    returns (r: Result<seq<Step>, string>)
    modifies tracer.dsAnalyzer
    ensures parsed.Failure? ==> r == Failure(TraceErrorPrefix + (AnalyzeErrorPrefix + parsed.error))
    ensures parsed.Success? ==> r.Success? && Timeline(code, r.value)
    ensures r.Success? && r.value != [] ==> fresh(r.value[0].dsState.arrays)
  {
    var result := tracer.TraceExecution(code, parsed);
    if result.Failure? {
      return Failure(result.error);
    }
    r := Success(result.value.executionTimeline);
  }

  /** The reply of `compare_algorithms` once both codes are traced. */
  method Summarise(ghost codeA: string, ghost codeB: string, timelineA: seq<Step>, timelineB: seq<Step>)
    returns (report: ComparisonReport)
    requires Timeline(codeA, timelineA) && Timeline(codeB, timelineB)
    ensures report.algorithmA == AlgorithmReport(timelineA, ExtractedMetrics(timelineA), |timelineA|)
    ensures report.algorithmB == AlgorithmReport(timelineB, ExtractedMetrics(timelineB), |timelineB|)
    ensures report.comparison == Compare(report.algorithmA.metrics, report.algorithmB.metrics)
    ensures report.comparison.fasterAlgorithm == "A" <==>
      Max(|Kept(SourceLines(codeA))|, 1) < Max(|Kept(SourceLines(codeB))|, 1)
    ensures report.comparison.spaceComparison == "Both algorithms use O(1) space"
  {
    var metricsA := ExtractAlgorithmMetrics(timelineA);
    var metricsB := ExtractAlgorithmMetrics(timelineB);
    ComparisonOfTraces(codeA, codeB, timelineA, timelineB);
    report := ComparisonReport(
      AlgorithmReport(timelineA, metricsA, |timelineA|),
      AlgorithmReport(timelineB, metricsB, |timelineB|),
      Compare(metricsA, metricsB));
  }

  /** Python's `not code`: a missing, null or empty code sample. */
  predicate Blank(code: Option<string>)
  {
    code.None? || code.value == ""
  }

  /**
    `compare_algorithms`: both samples must be present; one tracer traces A then B, and a
    trace error becomes a 500 carrying its message. Since each run has its own shared
    array list, tracing B leaves A's timeline as it was, and since the mock counts only
    grow with the step number, A is reported faster exactly when it has fewer executable
    lines (an empty program counting as one line).
  */
  method CompareAlgorithms(codeA: Option<string>, codeB: Option<string>,
      parsedA: Result<seq<WalkNode>, string>, parsedB: Result<seq<WalkNode>, string>)
    returns (r: Result<ComparisonReport, HttpError>)
    ensures Blank(codeA) || Blank(codeB) ==> r == Failure(MissingCode)
    ensures !Blank(codeA) && !Blank(codeB) && parsedA.Failure? ==>
      r == Failure(HttpError(500, ComparisonErrorPrefix + (TraceErrorPrefix + (AnalyzeErrorPrefix + parsedA.error))))
    ensures !Blank(codeA) && !Blank(codeB) && parsedA.Success? && parsedB.Failure? ==>
      r == Failure(HttpError(500, ComparisonErrorPrefix + (TraceErrorPrefix + (AnalyzeErrorPrefix + parsedB.error))))
    ensures r.Success? <==> !Blank(codeA) && !Blank(codeB) && parsedA.Success? && parsedB.Success?
    ensures r.Success? ==> (codeA.Some? && codeB.Some? &&
      var ra := r.value.algorithmA;
      var rb := r.value.algorithmB;
      && Timeline(codeA.value, ra.executionTimeline)
      && Timeline(codeB.value, rb.executionTimeline)
      && ra.totalSteps == |ra.executionTimeline| && rb.totalSteps == |rb.executionTimeline|
      && ra.metrics == ExtractedMetrics(ra.executionTimeline)
      && rb.metrics == ExtractedMetrics(rb.executionTimeline)
      && r.value.comparison == Compare(ra.metrics, rb.metrics)
      && (r.value.comparison.fasterAlgorithm == "A" <==>
        Max(|Kept(SourceLines(codeA.value))|, 1) < Max(|Kept(SourceLines(codeB.value))|, 1))
      && r.value.comparison.spaceComparison == "Both algorithms use O(1) space"
      && (ra.executionTimeline != [] && rb.executionTimeline != [] ==>
        ra.executionTimeline[0].dsState.arrays != rb.executionTimeline[0].dsState.arrays))
  {
    if Blank(codeA) || Blank(codeB) {
      return Failure(MissingCode);
    }
    var tracer := new ExecutionTracer();
    var resultA := TimelineOf(tracer, codeA.value, parsedA);
    if resultA.Failure? {
      return Failure(HttpError(500, ComparisonErrorPrefix + resultA.error));
    }
    var timelineA := resultA.value;
    ghost var arraysA: ArrayList? := if timelineA == [] then null else timelineA[0].dsState.arrays;
    var resultB := TimelineOf(tracer, codeB.value, parsedB);
    if resultB.Failure? {
      return Failure(HttpError(500, ComparisonErrorPrefix + resultB.error));
    }
    var timelineB := resultB.value;
    assert timelineB != [] ==> timelineB[0].dsState.arrays != arraysA;
    var report := Summarise(codeA.value, codeB.value, timelineA, timelineB);
    r := Success(report);
  }
}
