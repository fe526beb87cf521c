/**
  The execution tracer (`ExecutionTracer`): it does not run the program, it reads the
  source text line by line and, for every line that is neither blank nor a comment,
  produces a step with a mock data-structure state, the variables the line assigns, an
  operation label and mock metrics.

  The mock state's `arrays` list is created once per run and every step's state is a
  shallow copy that still refers to it, so an array change made at a later line is seen
  through the state of every earlier step. `ArrayList` is that one shared list.
*/
module DsTracer {
  import opened Results
  import opened PyText
  import opened PyAst
  import opened DsAnalyzer

  /** A value `_extract_variables` reports: an `int` or a `str`. */
  datatype VarValue = IntVar(i: int) | StrVar(s: string)

  datatype StepMetrics = StepMetrics(comparisons: nat, swaps: nat, memoryUsed: string, timeComplexity: string)

  /** An entry of the mock state's `arrays` list. */
  datatype TracedArray = TracedArray(name: string, values: seq<int>, highlightIndex: Option<int>, operation: string)

  /** The mock state's `arrays` list: one object per run, shared by every step. */
  class ArrayList {
    var entries: seq<TracedArray>

    constructor ()
      ensures entries == []
    {
      entries := [];
    }
  }

  /** A step's `dsState`: a shallow copy of the mock state, so it holds the shared list itself. */
  datatype DsState = DsState(arrays: ArrayList)

  datatype Step = Step(
    stepNumber: nat,
    lineNumber: nat,
    code: string,
    dsState: DsState,
    variables: map<string, VarValue>,
    operation: string,
    metrics: StepMetrics)

  /** A source line that produces a step: its 1-based number and its stripped text. */
  datatype NumberedLine = NumberedLine(number: nat, text: string)

  /** What `trace_execution` returns. */
  datatype Trace = Trace(staticAnalysis: Analysis, executionTimeline: seq<Step>, totalSteps: nat)

  // ---------------------------------------------------------------- which lines run

  /** `code.strip().split('\n')`. */
  function SourceLines(code: string): seq<string>
  {
    SplitOn(Strip(code), "\n")
  }

  /** A stripped line produces a step unless it is empty or starts with `#`. */
  predicate IsExecutable(text: string)
  {
    text != [] && !StartsWith(text, "#")
  }

  /** The lines that produce steps, in order, with their 1-based numbers. */
  function Kept(lines: seq<string>): seq<NumberedLine>
  {
    if lines == [] then []
    else
      var text := Strip(lines[|lines| - 1]);
      Kept(lines[..|lines| - 1]) + (if IsExecutable(text) then [NumberedLine(|lines|, text)] else [])
  }

  // ---------------------------------------------------------------- `_update_ds_state`

  /** The line looks like an array creation: it contains `= [` and `]`. */
  predicate IsCreation(line: string)
  {
    Contains(line, "= [") && Contains(line, "]")
  }

  /** `[int(x.strip()) for x in fields if x.strip()]`: `None` when some `int` raises. */
  function ParseFields(fields: seq<string>): Option<seq<int>>
  {
    if fields == [] then Some([])
    else
      match ParseFields(fields[..|fields| - 1])
      case None => None
      case Some(vs) =>
        var x := Strip(fields[|fields| - 1]);
        if x == [] then Some(vs)
        else
          match ParseInt(x)
          case None => None
          case Some(v) => Some(vs + [v])
  }

  /** The array a creation line adds, or `None` when one of its values is not an integer. */
  function CreatedArray(line: string): Option<TracedArray>
    requires IsCreation(line)
  {
    ContainsSuffix(line, "= [", 2);
    var name := Strip(SplitOn(line, "=")[0]);
    var valuesStr := SplitOn(SplitOn(line, "[")[1], "]")[0];
    match ParseFields(SplitOn(valuesStr, ","))
    case None => None
    case Some(vs) => Some(TracedArray(name, vs, None, "Created array " + name))
  }

  /** An entry after `value` is appended to it. */
  function Appended(a: TracedArray, v: int, name: string): TracedArray
  {
    TracedArray(a.name, a.values + [v], Some(|a.values|), "Appended " + IntToString(v) + " to " + name)
  }

  /** One entry after the append loop has passed it. */
  function AfterAppend(a: TracedArray, name: string, parsed: Option<int>): TracedArray
  {
    if a.name == name && parsed.Some? then Appended(a, parsed.value, name) else a
  }

  /** Every entry called `name` gets `v` appended; the others are kept. */
  function AppendTo(entries: seq<TracedArray>, name: string, v: int): seq<TracedArray>
  {
    seq(|entries|, i requires 0 <= i < |entries| =>
      if entries[i].name == name then Appended(entries[i], v, name) else entries[i])
  }

  /** The receiver name and the argument text of an `.append(` line. */
  function AppendParts(line: string): (string, string)
    requires Contains(line, ".append(")
  {
    var parts := SplitOn(line, ".append(");
    (Strip(parts[0]), SplitOn(parts[1], ")")[0])
  }

  /** The shared `arrays` list after one line. */
  function UpdateArrays(line: string, entries: seq<TracedArray>): seq<TracedArray>
  {
    if IsCreation(line) then
      match CreatedArray(line)
      case Some(a) => entries + [a]
      case None => entries
    else if Contains(line, ".append(") then
      var (name, valueStr) := AppendParts(line);
      match ParseInt(valueStr)
      case Some(v) => AppendTo(entries, name, v)
      case None => entries
    else entries
  }

  /** The shared `arrays` list after the given lines, starting empty. */
  function Replay(kept: seq<NumberedLine>): seq<TracedArray>
  {
    if kept == [] then [] else UpdateArrays(kept[|kept| - 1].text, Replay(kept[..|kept| - 1]))
  }

  // ---------------------------------------------------------------- the other step fields

  /** `_extract_variables`: at most the one name left of the first `=`. */
  function ExtractVariables(line: string): (vars: map<string, VarValue>)
    ensures vars != map[] ==> Contains(line, "=") && !StartsWith(Strip(line), "=")
  {
    if Contains(line, "=") && !StartsWith(Strip(line), "=") then
      var k := Find(line, "=");
      VariableOf(Strip(line[..k]), Strip(line[k + 1..]))
    else map[]
  }

  /** What `_extract_variables` reports for the stripped name and value on either side of the `=`. */
  function VariableOf(name: string, value: string): map<string, VarValue>
  {
    if IsDigitString(value) then
      match ParseInt(value)
      case Some(n) => map[name := IntVar(n)]
      case None => map[name := StrVar("unknown")]
    else if StartsWith(value, "\"") && EndsWith(value, "\"") then
      map[name := StrVar(if |value| >= 2 then value[1..|value| - 1] else "")]
    else map[]
  }

  /** The labels `_identify_operation` can give. */
  const OperationLabels := {"Array Append", "Array Pop", "Array Insert", "Array Creation", "Loop Start",
    "Conditional Check", "Function Definition", "Assignment", "Expression"}

  /** `_identify_operation`: the first pattern that matches, in the source's order. */
  function IdentifyOperation(line: string): string
  {
    var lower := Lower(line);
    if Contains(lower, ".append(") then "Array Append"
    else if Contains(lower, ".pop(") then "Array Pop"
    else if Contains(lower, ".insert(") then "Array Insert"
    else if IsCreation(line) then "Array Creation"
    else if Contains(lower, "for ") then "Loop Start"
    else if Contains(lower, "if ") then "Conditional Check"
    else if Contains(lower, "def ") then "Function Definition"
    else if Contains(line, "=") then "Assignment"
    else "Expression"
  }

  /**
    `_calculate_metrics`. The quadratic label is the byte sequence of `O(n²)` mis-decoded
    as Latin-1, as the source file holds it.
  */
  function CalculateMetrics(stepNumber: nat): StepMetrics
  {
    StepMetrics(stepNumber * 2, stepNumber / 2, NatToString(stepNumber * 4) + "KB",
      if stepNumber < 10 then "O(n)" else "O(n\U{C2}\U{B2})")
  }

  /** The step produced for the `i`-th executable line, holding the run's shared list. */
  function MakeStep(i: nat, nl: NumberedLine, arrays: ArrayList): Step
  {
    Step(i, nl.number, nl.text, DsState(arrays), ExtractVariables(nl.text), IdentifyOperation(nl.text), CalculateMetrics(i))
  }

  /** The steps produced for the given executable lines, all holding one shared list. */
  function StepsFor(kept: seq<NumberedLine>, arrays: ArrayList): (steps: seq<Step>)
    ensures |steps| == |kept|
    ensures forall i :: 0 <= i < |steps| ==> steps[i].dsState.arrays == arrays
  {
    if kept == [] then []
    else StepsFor(kept[..|kept| - 1], arrays) + [MakeStep(|kept| - 1, kept[|kept| - 1], arrays)]
  }

  // ---------------------------------------------------------------- the simulation

  /** `_update_ds_state`: changes the shared list in place and returns the state it was given. */
  method UpdateDsState(line: string, state: DsState) returns (r: DsState)
    modifies state.arrays
    ensures r == state
    ensures state.arrays.entries == UpdateArrays(line, old(state.arrays.entries))
  {
    var arrays := state.arrays;
    if Contains(line, "= [") && Contains(line, "]") {
      ContainsSuffix(line, "= [", 2);
      var varName := Strip(SplitOn(line, "=")[0]);
      var valuesStr := SplitOn(SplitOn(line, "[")[1], "]")[0];
      var values := ParseFields(SplitOn(valuesStr, ","));
      if values.Some? {
        arrays.entries := arrays.entries + [TracedArray(varName, values.value, None, "Created array " + varName)];
      }
    } else if Contains(line, ".append(") {
      var parts := SplitOn(line, ".append(");
      if |parts| >= 2 {
        var varName := Strip(parts[0]);
        var valueStr := SplitOn(parts[1], ")")[0];
        assert (varName, valueStr) == AppendParts(line);
        ghost var e0 := arrays.entries;
        ghost var parsed := ParseInt(valueStr);
        for k := 0 to |arrays.entries|
          invariant |arrays.entries| == |e0|
          invariant forall j :: 0 <= j < |e0| ==>
            arrays.entries[j] == if j < k then AfterAppend(e0[j], varName, parsed) else e0[j]
        {
          if arrays.entries[k].name == varName {
            var value := ParseInt(valueStr);
            if value.Some? {
              var arr := arrays.entries[k];
              arrays.entries := arrays.entries[k := Appended(arr, value.value, varName)];
            }
          }
        }
        if parsed.Some? {
          assert arrays.entries == AppendTo(e0, varName, parsed.value);
        } else {
          assert arrays.entries == e0;
        }
      }
    }
    r := state;
  }

  /**
    `steps` is the timeline of `code`: one step per executable line, every step holding the
    first step's list, and that list holding the arrays after all lines.
  */
  ghost predicate Timeline(code: string, steps: seq<Step>)
    reads if steps == [] then {} else {steps[0].dsState.arrays}
  {
    var kept := Kept(SourceLines(code));
    && |steps| == |kept|
    && (|steps| > 0 ==>
      && steps == StepsFor(kept, steps[0].dsState.arrays)
      && steps[0].dsState.arrays.entries == Replay(kept))
  }

  /**
    `_simulate_execution`: one step per executable line. Every step's state refers to the
    same fresh list, which ends up holding the arrays after all lines.
  */
  method SimulateExecution(code: string) returns (steps: seq<Step>)
    ensures Timeline(code, steps)
    ensures |steps| > 0 ==> fresh(steps[0].dsState.arrays)
  {
    var lines := SplitOn(Strip(code), "\n");
    steps := [];
    var shared := new ArrayList();
    var current := DsState(shared);
    ghost var kept: seq<NumberedLine> := [];
    for i := 0 to |lines|
      invariant current.arrays == shared
      invariant kept == Kept(lines[..i])
      invariant |steps| == |kept|
      invariant steps == StepsFor(kept, shared)
      invariant shared.entries == Replay(kept)
    {
      KeptStep(lines, i);
      var line := Strip(lines[i]);
      if line != [] && !StartsWith(line, "#") {
        var step := TraceLine(|steps|, i + 1, line, current);
        ReplayStep(kept, NumberedLine(i + 1, line));
        StepsForStep(kept, NumberedLine(i + 1, line), shared);
        kept := kept + [NumberedLine(i + 1, line)];
        steps := steps + [step];
        current := step.dsState;
      }
    }
    assert lines[..|lines|] == lines;
    assert kept == Kept(SourceLines(code));
    if |steps| > 0 {
      assert steps[0].dsState.arrays == shared;
    }
  }

  /** One iteration of `_simulate_execution`: the step for an executable line. */
  method TraceLine(stepNumber: nat, lineNumber: nat, line: string, current: DsState) returns (step: Step)
    modifies current.arrays
    ensures step == MakeStep(stepNumber, NumberedLine(lineNumber, line), current.arrays)
    ensures current.arrays.entries == UpdateArrays(line, old(current.arrays.entries))
  {
    var dsState := UpdateDsState(line, DsState(current.arrays));
    step := Step(stepNumber, lineNumber, line, dsState, ExtractVariables(line), IdentifyOperation(line),
      CalculateMetrics(stepNumber));
  }

  lemma KeptStep(lines: seq<string>, i: nat)
    requires i < |lines|
    ensures IsExecutable(Strip(lines[i])) ==>
      Kept(lines[..i + 1]) == Kept(lines[..i]) + [NumberedLine(i + 1, Strip(lines[i]))]
    ensures !IsExecutable(Strip(lines[i])) ==> Kept(lines[..i + 1]) == Kept(lines[..i])
  {
    assert lines[..i + 1][..i] == lines[..i];
    assert Kept(lines[..i]) + [] == Kept(lines[..i]);
  }

  /** The `i`-th step is the one made for the `i`-th executable line: its step number is `i`. */
  lemma {:induction false} StepsForIndex(kept: seq<NumberedLine>, arrays: ArrayList, i: nat)
    requires i < |kept|
    ensures StepsFor(kept, arrays)[i] == MakeStep(i, kept[i], arrays)
  {
    var init := kept[..|kept| - 1];
    if i < |init| {
      StepsForIndex(init, arrays, i);
      assert StepsFor(kept, arrays)[i] == StepsFor(init, arrays)[i];
    }
  }

  lemma StepsForStep(kept: seq<NumberedLine>, nl: NumberedLine, arrays: ArrayList)
    ensures StepsFor(kept + [nl], arrays) == StepsFor(kept, arrays) + [MakeStep(|kept|, nl, arrays)]
  {
    assert (kept + [nl])[..|kept|] == kept;
  }

  lemma ReplayStep(kept: seq<NumberedLine>, nl: NumberedLine)
    ensures Replay(kept + [nl]) == UpdateArrays(nl.text, Replay(kept))
  {
    assert (kept + [nl])[..|kept|] == kept;
  }

  // ---------------------------------------------------------------- the tracer

  /** The prefix `trace_execution` puts before the message of any exception it re-raises. */
  const TraceErrorPrefix := "Failed to trace execution: "

  class ExecutionTracer {
    var executionSteps: seq<Step>
    var currentStep: int
    const dsAnalyzer: DataStructureAnalyzer

    constructor ()
      ensures executionSteps == [] && currentStep == 0
      ensures fresh(dsAnalyzer) && dsAnalyzer.State() == AnalyzerState([], [], [], map[])
    {
      executionSteps := [];
      currentStep := 0;
      dsAnalyzer := new DataStructureAnalyzer();
    }

    /**
      `trace_execution`: the static analysis of `parsed` (what `ast.parse` makes of `code`)
      and the simulated timeline of `code`; a parse error is re-raised with both prefixes.
    */
    method TraceExecution(code: string, parsed: Result<seq<WalkNode>, string>) returns (r: Result<Trace, string>)
      modifies dsAnalyzer
      ensures parsed.Failure? ==>
        && dsAnalyzer.State() == old(dsAnalyzer.State())
        && r == Failure(TraceErrorPrefix + (AnalyzeErrorPrefix + parsed.error))
      ensures parsed.Success? ==>
        && dsAnalyzer.State() == Apply(Reset(old(dsAnalyzer.State())), WalkRecords(parsed.value))
        && r.Success?
        && r.value.staticAnalysis == Analysis(dsAnalyzer.dsOperations, dsAnalyzer.arrays, dsAnalyzer.hashMaps,
          dsAnalyzer.lineToOperations)
        && r.value.totalSteps == |r.value.executionTimeline|
        && Timeline(code, r.value.executionTimeline)
        && (r.value.executionTimeline != [] ==> fresh(r.value.executionTimeline[0].dsState.arrays))
    {
      var analysis := dsAnalyzer.AnalyzeCode(parsed);
      if analysis.Failure? {
        return Failure(TraceErrorPrefix + analysis.error);
      }
      ghost var analyzed := dsAnalyzer.State();
      var timeline := SimulateExecution(code);
      assert dsAnalyzer.State() == analyzed;
      r := Success(Trace(analysis.value, timeline, |timeline|));
      assert r.value.executionTimeline == timeline && Timeline(code, timeline);
    }
  }

  // ---------------------------------------------------------------- lemmas

  /**
    The kept lines are numbered within range, in strictly increasing order, each one the
    stripped text of its source line and executable.
  */
  lemma {:induction false} KeptLines(lines: seq<string>)
    ensures forall i :: 0 <= i < |Kept(lines)| ==>
      && 1 <= Kept(lines)[i].number <= |lines|
      && Kept(lines)[i].text == Strip(lines[Kept(lines)[i].number - 1])
      && IsExecutable(Kept(lines)[i].text)
    ensures forall i, j :: 0 <= i < j < |Kept(lines)| ==> Kept(lines)[i].number < Kept(lines)[j].number
  {
    if lines != [] {
      var init := lines[..|lines| - 1];
      KeptLines(init);
      forall i | 0 <= i < |Kept(init)|
        ensures Kept(init)[i].text == Strip(lines[Kept(init)[i].number - 1])
      {
        assert lines[Kept(init)[i].number - 1] == init[Kept(init)[i].number - 1];
      }
    }
  }

  /** Every executable line is kept. */
  lemma {:induction false} KeptComplete(lines: seq<string>, j: nat)
    requires j < |lines| && IsExecutable(Strip(lines[j]))
    ensures exists i :: 0 <= i < |Kept(lines)| && Kept(lines)[i] == NumberedLine(j + 1, Strip(lines[j]))
  {
    var init := lines[..|lines| - 1];
    if j == |lines| - 1 {
      assert Kept(lines)[|Kept(init)|] == NumberedLine(j + 1, Strip(lines[j]));
    } else {
      assert lines[j] == init[j];
      KeptComplete(init, j);
      var i :| 0 <= i < |Kept(init)| && Kept(init)[i] == NumberedLine(j + 1, Strip(init[j]));
      assert Kept(lines)[i] == Kept(init)[i];
    }
  }

  predicate NumberText(s: string)
  {
    forall c :: c in s ==> c == '-' || c == ',' || IsDecimal(c)
  }

  lemma IntToStringText(v: int)
    ensures NumberText(IntToString(v)) && IntToString(v) != []
    ensures !IsSpace(IntToString(v)[0]) && !IsSpace(IntToString(v)[|IntToString(v)| - 1])
  {
  }

  /** `str(v)` for each value. */
  function Renders(vs: seq<int>): seq<string>
  {
    seq(|vs|, i requires 0 <= i < |vs| => IntToString(vs[i]))
  }

  lemma {:induction false} JoinRendersText(vs: seq<int>)
    ensures NumberText(Join(",", Renders(vs)))
    decreases |vs|
  {
    if |vs| == 1 {
      IntToStringText(vs[0]);
    } else if |vs| > 1 {
      IntToStringText(vs[0]);
      JoinRendersText(vs[1..]);
      assert Renders(vs)[1..] == Renders(vs[1..]);
    }
  }

  /** One more field that is an integer with no surrounding space adds that integer. */
  lemma ParseFieldsSnoc(fields: seq<string>, vs: seq<int>, v: int)
    requires fields != [] && ParseFields(fields[..|fields| - 1]) == Some(vs)
    requires fields[|fields| - 1] != [] && Strip(fields[|fields| - 1]) == fields[|fields| - 1]
    requires ParseInt(fields[|fields| - 1]) == Some(v)
    ensures ParseFields(fields) == Some(vs + [v])
  {
  }

  /** A rendered integer is a field with no surrounding space that parses back. */
  lemma RenderedField(v: int)
    ensures var text := IntToString(v);
      text != [] && Strip(text) == text && ParseInt(text) == Some(v)
  {
    IntToStringText(v);
    StripTrimmed(IntToString(v));
    ParseIntOfIntToString(v);
  }

  lemma RendersSnoc(vs: seq<int>, v: int)
    ensures Renders(vs + [v]) == Renders(vs) + [IntToString(v)]
  {
  }

  /** Every rendered integer parses back, so the fields of a rendered list give the list. */
  lemma {:induction false} ParseFieldsOfRenders(vs: seq<int>)
    ensures ParseFields(Renders(vs)) == Some(vs)
  {
    if vs != [] {
      var init := vs[..|vs| - 1];
      var v := vs[|vs| - 1];
      assert vs == init + [v];
      ParseFieldsOfRenders(init);
      RendersSnoc(init, v);
      var fields := Renders(init) + [IntToString(v)];
      assert fields[..|fields| - 1] == Renders(init);
      RenderedField(v);
      ParseFieldsSnoc(fields, init, v);
    }
  }

  /** Splitting a rendered list on commas and parsing the fields gives the list back. */
  lemma ParseRenderedList(vs: seq<int>)
    ensures ParseFields(SplitOn(Join(",", Renders(vs)), ",")) == Some(vs)
  {
    if vs == [] {
      assert Join(",", Renders(vs)) == "";
      assert SplitOn("", ",") == [""];
      assert ParseFields([""]) == ParseFields([]);
    } else {
      forall i | 0 <= i < |Renders(vs)| ensures ',' !in Renders(vs)[i] {
        IntToStringText(vs[i]);
      }
      SplitOnJoin(',', Renders(vs));
      ParseFieldsOfRenders(vs);
    }
  }

  /** A line `name = [body]` is a creation line. */
  lemma CreationLineDetected(name: string, body: string)
    ensures IsCreation(name + " = [" + body + "]")
  {
    var line := name + " = [" + body + "]";
    assert line[|name| + 1..|name| + 4] == "= [";
    ContainsAt(line, "= [", |name| + 1);
    assert line[|line| - 1..] == "]";
    ContainsAt(line, "]", |line| - 1);
  }

  /** The target of `name = [body]` is `name` when `name` is trimmed and has no `=`. */
  lemma CreationLineName(name: string, body: string)
    requires Trimmed(name) && '=' !in name
    ensures Strip(SplitOn(name + " = [" + body + "]", "=")[0]) == name
  {
    var line := name + " = [" + body + "]";
    assert line == (name + " ") + "=" + (" [" + body + "]");
    SplitAfter(name + " ", "=", " [" + body + "]");
    StripPadded([], name, " ");
    assert [] + name + " " == name + " ";
  }

  /** The values text of `name = [body]` is `body` when neither holds a stray bracket. */
  lemma CreationLineValues(name: string, body: string)
    requires '[' !in name && '[' !in body && ']' !in body
    ensures var line := name + " = [" + body + "]";
      && |SplitOn(line, "[")| >= 2
      && SplitOn(SplitOn(line, "[")[1], "]")[0] == body
  {
    var line := name + " = [" + body + "]";
    assert SplitOn(line, "[") == [name + " = "] + [body + "]"] by {
      assert line == (name + " = ") + "[" + (body + "]");
      SplitAfter(name + " = ", "[", body + "]");
      FindAbsent(body + "]", "[");
    }
    assert SplitOn(body + "]", "]")[0] == body by {
      assert body + "]" == body + "]" + [];
      SplitFirst(body, ']', []);
    }
  }

  /**
    A line `name = [v1,v2,...]` adds the array `name` holding exactly those integers. The
    name must be trimmed and contain no `=` and no `[`.
  */
  lemma CreationRoundTrip(name: string, vs: seq<int>, entries: seq<TracedArray>)
    requires Trimmed(name) && '=' !in name && '[' !in name
    ensures UpdateArrays(name + " = [" + Join(",", Renders(vs)) + "]", entries) ==
      entries + [TracedArray(name, vs, None, "Created array " + name)]
  {
    var body := Join(",", Renders(vs));
    JoinRendersText(vs);
    assert '[' !in body && ']' !in body;
    CreationLineDetected(name, body);
    CreationLineName(name, body);
    CreationLineValues(name, body);
    ParseRenderedList(vs);
  }

  /** A line `name.append(arg)` is no creation line, and its receiver is `name` and its argument text `arg`. */
  lemma AppendLine(name: string, arg: string)
    requires Trimmed(name) && '.' !in name && '=' !in name && '.' !in arg && '=' !in arg && ')' !in arg
    ensures var line := name + ".append(" + arg + ")";
      && !IsCreation(line)
      && Contains(line, ".append(")
      && AppendParts(line) == (name, arg)
  {
    var line := name + ".append(" + arg + ")";
    assert !IsCreation(line) by {
      assert '=' !in line;
      FindAbsent(line, "= [");
    }
    assert SplitOn(line, ".append(") == [name] + SplitOn(arg + ")", ".append(") by {
      assert line == name + ".append(" + (arg + ")");
      SplitAfter(name, ".append(", arg + ")");
    }
    assert SplitOn(arg + ")", ".append(") == [arg + ")"] by {
      FindAbsent(arg + ")", ".append(");
    }
    assert SplitOn(arg + ")", ")")[0] == arg by {
      assert arg + ")" == arg + [')'] + [];
      SplitFirst(arg, ')', []);
    }
    StripTrimmed(name);
  }

  /**
    A line `name.append(v)` appends `v` to every array called `name` and leaves the other
    arrays alone. The name must be trimmed and contain no `.` and no `=`.
  */
  lemma AppendRoundTrip(name: string, v: int, entries: seq<TracedArray>)
    requires Trimmed(name) && '.' !in name && '=' !in name
    ensures UpdateArrays(name + ".append(" + IntToString(v) + ")", entries) == AppendTo(entries, name, v)
  {
    IntToStringText(v);
    AppendLine(name, IntToString(v));
    ParseIntOfIntToString(v);
  }

  /** Two executable one-line texts joined by a newline are kept as lines 1 and 2. */
  lemma TwoLinesKept(l1: string, l2: string)
    requires IsExecutable(l1) && IsExecutable(l2) && Trimmed(l1) && Trimmed(l2)
    requires '\n' !in l1 && '\n' !in l2
    ensures Kept(SourceLines(l1 + "\n" + l2)) == [NumberedLine(1, l1), NumberedLine(2, l2)]
  {
    var code := l1 + "\n" + l2;
    assert Trimmed(code) by {
      assert code[0] == l1[0] && code[|code| - 1] == l2[|l2| - 1];
    }
    StripTrimmed(code);
    assert code == l1 + ['\n'] + l2;
    SplitFirst(l1, '\n', l2);
    SplitNone(l2, '\n');
    StripTrimmed(l1);
    StripTrimmed(l2);
    var lines := [l1, l2];
    assert SourceLines(code) == lines;
    assert lines[..1][..0] == [];
    assert Kept(lines[..1]) == [NumberedLine(1, l1)];
  }

  /** `name = [v]` as a source line. */
  function CreationText(name: string, v: int): string
  {
    name + " = [" + IntToString(v) + "]"
  }

  /** `name.append(w)` as a source line. */
  function AppendText(name: string, w: int): string
  {
    name + ".append(" + IntToString(w) + ")"
  }

  /** A name the two lines above can be written with. */
  predicate PlainName(name: string)
  {
    name != [] && Trimmed(name) && name[0] != '#' && '=' !in name && '[' !in name && '.' !in name && '\n' !in name
  }

  /** A plain name, then newline-free text, then a closing character is one executable, trimmed line. */
  lemma FramedLine(name: string, mid: string, last: char)
    requires PlainName(name) && '\n' !in mid && last != '\n' && !IsSpace(last)
    ensures var t := name + mid + [last];
      IsExecutable(t) && Trimmed(t) && '\n' !in t
  {
    var t := name + mid + [last];
    assert t[0] == name[0];
    assert t[..1] == [name[0]];
    assert t[|t| - 1] == last;
  }

  lemma NoNewlineIn(prefix: string, v: int)
    requires '\n' !in prefix
    ensures '\n' !in prefix + IntToString(v)
  {
    IntToStringText(v);
  }

  lemma CreationTextShape(name: string, v: int)
    requires PlainName(name)
    ensures IsExecutable(CreationText(name, v)) && Trimmed(CreationText(name, v)) && '\n' !in CreationText(name, v)
  {
    var mid := " = [" + IntToString(v);
    assert CreationText(name, v) == name + mid + [']'];
    NoNewlineIn(" = [", v);
    FramedLine(name, mid, ']');
  }

  lemma AppendTextShape(name: string, w: int)
    requires PlainName(name)
    ensures IsExecutable(AppendText(name, w)) && Trimmed(AppendText(name, w)) && '\n' !in AppendText(name, w)
  {
    var mid := ".append(" + IntToString(w);
    assert AppendText(name, w) == name + mid + [')'];
    NoNewlineIn(".append(", w);
    FramedLine(name, mid, ')');
  }

  /** On an empty list, `name = [v]` creates the one array `name` holding `[v]`. */
  lemma CreationTextReplay(name: string, v: int)
    requires PlainName(name)
    ensures Replay([NumberedLine(1, CreationText(name, v))]) == [TracedArray(name, [v], None, "Created array " + name)]
  {
    assert [NumberedLine(1, CreationText(name, v))][..0] == [];
    assert Renders([v]) == [IntToString(v)];
    assert Join(",", Renders([v])) == IntToString(v);
    CreationRoundTrip(name, [v], []);
  }

  /** `name.append(w)` on the one array `name` holding `[v]` makes it `[v, w]` and highlights index 1. */
  lemma AppendTextOnCreated(name: string, v: int, w: int)
    requires PlainName(name)
    ensures UpdateArrays(AppendText(name, w), [TracedArray(name, [v], None, "Created array " + name)]) ==
      [TracedArray(name, [v, w], Some(1), "Appended " + IntToString(w) + " to " + name)]
  {
    var created := TracedArray(name, [v], None, "Created array " + name);
    AppendRoundTrip(name, w, [created]);
    assert [v] + [w] == [v, w];
    assert Appended(created, w, name) == TracedArray(name, [v, w], Some(1), "Appended " + IntToString(w) + " to " + name);
    assert |AppendTo([created], name, w)| == 1;
    assert AppendTo([created], name, w)[0] == Appended(created, w, name);
  }

  /**
    The shared list at work on `name = [v]` followed by `name.append(w)`: the first line alone
    leaves `[v]`, yet the run's one list ends as `[v, w]`, and both steps hold that list, so
    the state reported for step 0 shows the append made at line 2.
  */
  lemma EarlierStepSeesLaterAppend(name: string, v: int, w: int, steps: seq<Step>)
    requires PlainName(name)
    requires Timeline(CreationText(name, v) + "\n" + AppendText(name, w), steps)
    ensures Replay([NumberedLine(1, CreationText(name, v))]) == [TracedArray(name, [v], None, "Created array " + name)]
    ensures |steps| == 2 && steps[0].dsState.arrays == steps[1].dsState.arrays
    ensures steps[0].dsState.arrays.entries ==
      [TracedArray(name, [v, w], Some(1), "Appended " + IntToString(w) + " to " + name)]
  {
    var l1, l2 := CreationText(name, v), AppendText(name, w);
    var kept := [NumberedLine(1, l1), NumberedLine(2, l2)];
    assert Kept(SourceLines(l1 + "\n" + l2)) == kept by {
      CreationTextShape(name, v);
      AppendTextShape(name, w);
      TwoLinesKept(l1, l2);
    }
    CreationTextReplay(name, v);
    assert Replay(kept) == [TracedArray(name, [v, w], Some(1), "Appended " + IntToString(w) + " to " + name)] by {
      AppendTextOnCreated(name, v, w);
      ReplayStep([NumberedLine(1, l1)], NumberedLine(2, l2));
      assert [NumberedLine(1, l1)] + [NumberedLine(2, l2)] == kept;
    }
    assert steps == StepsFor(kept, steps[0].dsState.arrays);
  }

  /** A line that changes the arrays is labelled with one of the array operations. */
  lemma ChangedStateIsArrayOperation(line: string, entries: seq<TracedArray>)
    requires UpdateArrays(line, entries) != entries
    ensures IdentifyOperation(line) in {"Array Append", "Array Pop", "Array Insert", "Array Creation"}
  {
    if !IsCreation(line) {
      assert Contains(line, ".append(");
      LowerKeepsPattern(line, ".append(");
    }
  }

  /** How `_extract_variables` splits `name<sp>=<sp>rest` when `name` is trimmed and has no `=`. */
  lemma AssignmentParts(name: string, rest: string)
    requires name != [] && Trimmed(name) && '=' !in name && rest != [] && Trimmed(rest)
    ensures ExtractVariables(name + " = " + rest) == VariableOf(name, rest)
  {
    var line := name + " = " + rest;
    var k := |name| + 1;
    assert Find(line, "=") == k by {
      assert line == (name + " ") + "=" + (" " + rest);
      FindAfter(name + " ", "=", " " + rest);
    }
    assert !StartsWith(Strip(line), "=") by {
      StripTrimmed(line);
      assert line[0] == name[0];
    }
    assert Strip(line[..k]) == name by {
      assert line[..k] == [] + name + " ";
      StripPadded([], name, " ");
    }
    assert Strip(line[k + 1..]) == rest by {
      assert line[k + 1..] == " " + rest + [];
      StripPadded(" ", rest, []);
    }
  }

  /** `name = <digits>` reports `name` with that integer value. */
  lemma IntAssignment(name: string, n: nat)
    requires name != [] && Trimmed(name) && '=' !in name
    ensures ExtractVariables(name + " = " + NatToString(n)) == map[name := IntVar(n)]
  {
    var digits := NatToString(n);
    DecimalsAreDigitGroups(digits);
    AssignmentParts(name, digits);
    ParseIntOfDecimals(digits);
    DecimalValueOfNatToString(n);
  }

  /** `name = "text"` reports `name` with the text between the quotes, whatever it holds. */
  lemma StringAssignment(name: string, text: string)
    requires name != [] && Trimmed(name) && '=' !in name
    ensures ExtractVariables(name + " = \"" + text + "\"") == map[name := StrVar(text)]
  {
    var quoted := "\"" + text + "\"";
    assert name + " = \"" + text + "\"" == name + " = " + quoted;
    AssignmentParts(name, quoted);
    assert !IsDigitString(quoted);
    assert quoted[1..|quoted| - 1] == text;
  }

  /** A superscript digit passes `isdigit` but not `int`, so the value is reported as `unknown`. */
  lemma SuperscriptIsUnknown()
    ensures ExtractVariables("x = \U{B2}") == map["x" := StrVar("unknown")]
  {
    AssignmentParts("x", "\U{B2}");
    assert "x" + " = " + "\U{B2}" == "x = \U{B2}";
    StripTrimmed("\U{B2}");
  }

  /** The memory figure reads back as four times the step number, and the label turns quadratic at step 10. */
  lemma MetricsShape(n: nat)
    ensures var m := CalculateMetrics(n);
      && EndsWith(m.memoryUsed, "KB")
      && ParseInt(m.memoryUsed[..|m.memoryUsed| - 2]) == Some(4 * n)
      && (m.timeComplexity == "O(n)" <==> n < 10)
  {
    var digits := NatToString(n * 4);
    var m := CalculateMetrics(n);
    assert m.memoryUsed[..|m.memoryUsed| - 2] == digits;
    ParseIntOfDecimals(digits);
    DecimalValueOfNatToString(n * 4);
  }

  /**
    The label is one of nine; `Assignment` needs an `=`, and `Expression` is given only to
    a line without one that is no array creation.
  */
  lemma OperationLabelled(line: string)
    ensures IdentifyOperation(line) in OperationLabels
    ensures IdentifyOperation(line) == "Assignment" ==> Contains(line, "=")
    ensures IdentifyOperation(line) == "Expression" ==> !Contains(line, "=") && !IsCreation(line)
  {
  }

  /** A line that calls none of `append`, `pop` and `insert`, in any case. */
  predicate NoListCall(line: string)
  {
    !Contains(Lower(line), ".append(") && !Contains(Lower(line), ".pop(") && !Contains(Lower(line), ".insert(")
  }

  /**
    The order in which `_identify_operation` tries its patterns on the lower-cased line:
    a call of `append` decides the label whatever else the line holds; then `pop`, then
    `insert`, each when the earlier calls are absent.
  */
  lemma ListCallsFirst(line: string)
    ensures Contains(Lower(line), ".append(") ==> IdentifyOperation(line) == "Array Append"
    ensures !Contains(Lower(line), ".append(") && Contains(Lower(line), ".pop(") ==>
      IdentifyOperation(line) == "Array Pop"
    ensures !Contains(Lower(line), ".append(") && !Contains(Lower(line), ".pop(") && Contains(Lower(line), ".insert(") ==>
      IdentifyOperation(line) == "Array Insert"
  {
  }

  /**
    After the three calls: a creation line is `Array Creation`; and a line with none of
    the seven patterns is `Assignment` exactly when it holds an `=`, else `Expression`.
  */
  lemma CreationThenRest(line: string)
    ensures NoListCall(line) && IsCreation(line) ==> IdentifyOperation(line) == "Array Creation"
    ensures NoListCall(line) && !IsCreation(line)
      && !Contains(Lower(line), "for ") && !Contains(Lower(line), "if ") && !Contains(Lower(line), "def ")
      ==> IdentifyOperation(line) == (if Contains(line, "=") then "Assignment" else "Expression")
  {
  }
}
