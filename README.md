# PyFlow analysers, modelled in Dafny

PyFlow's backend shows a Python program's behaviour as pictures. This project models the
four parts of that backend that decide what is shown:

- **The data-structure recorder** (`DataStructureAnalyzer`, module `DsAnalyzer`). It walks
  the nodes of a parsed program. For every list or dict assignment, list-method call,
  `len(name)` call and list comprehension it records an operation. Each operation gets a
  sequential timestamp and is filed under its line number.
- **The execution tracer** (`ExecutionTracer`, module `DsTracer`). It does not run the
  program. It reads the text line by line, and every line that is neither blank nor a
  comment becomes a step. A step carries a mock array state, the variable the line
  assigns, an operation label and mock metrics. The mock state's `arrays` list is made
  once per run, and every step holds a shallow copy of the state that refers to that same
  list. So a step's state shows the arrays as they are after the **whole** run, not after
  its own line. The model captures this with one `ArrayList` object per run, and
  `EarlierStepSeesLaterAppend` proves it on a two-line program.
- **The timeline routes** (module `DsAnalysisRoutes`):
  - `get_execution_step`: bounds checking and navigation flags;
  - `_extract_algorithm_metrics` and `_compare_space_usage`;
  - `compare_algorithms`, which traces two programs with one tracer and compares them.

  The mock counts grow with the step number, so comparing two programs comes down to
  comparing their numbers of executable lines.
- **The flowchart builder** (`FlowchartGenerator`, module `Flowchart`). It creates nodes
  `node0`, `node1`, ... and edges for a module body, recursing into `if`, `for` and `while`
  bodies. It then writes the graph as Mermaid text.
- **The debug route** (`debug_code`, module `DebugRoute`). Its replies to `start`, `step`
  and `stop` are computed from the request alone.

Supporting modules:

- `Results`: Option and Result.
- `PyText`: Python's `strip`, `find`, `split`, `join`, `lower`, `isdigit`, `int()` and
  `str()` over `seq<char>`.
- `PyAst`: the shapes of the `ast` nodes the analysers look at.

Where the source is an object that updates its fields, the model is a class whose
methods are proved against functions over the state:

- `DataStructureAnalyzer`: against `Apply` and `WalkRecords`;
- `FlowchartGenerator`: against `Process`, `ProcessAll`, `Generated` and `Mermaid`;
- `ExecutionTracer` and the shared list: against `Timeline`, `StepsFor` and `Replay`.

Properties are then proved about those functions.

Inputs the model takes as parameters instead of computing them:

- `ast.parse`: a program arrives parsed, or as the message of the exception it raised.
- `ast.walk`: its node order is an input sequence.
- `ast.unparse`: condition and iterable texts arrive already rendered.

## Model

| member | source | states |
|---|---|---|
| DsAnalyzer.Stamp | backend/app/services/ds_analyzer.py:188-198 | one operation per record, carrying that record's type, object, line and details, with timestamps counting up from the current length |
| DsAnalyzer.OnLine | backend/app/services/ds_analyzer.py:200-202 | an operation is in a line's list exactly when it was recorded with that line number |
| DsAnalyzer.StampAppend | backend/app/services/ds_analyzer.py:190-198 | timestamps continue from the current length across two runs of records |
| DsAnalyzer.IndexAppend | backend/app/services/ds_analyzer.py:200-202 | filing two runs of operations one after the other is filing their concatenation |
| DsAnalyzer.ArraysOfAppend | backend/app/services/ds_analyzer.py:84-107 | the array and dict registries of two runs concatenate |
| DsAnalyzer.OpsAppend | backend/app/services/ds_analyzer.py:188-198 | `ds_operations` after two runs equals `ds_operations` after their concatenation |
| DsAnalyzer.RegistryAppend | backend/app/services/ds_analyzer.py:92-107 | the `arrays` and `hashMaps` lists after two runs equal those after their concatenation |
| DsAnalyzer.LineMapAppend | backend/app/services/ds_analyzer.py:200-202 | `line_to_operations` after two runs equals it after their concatenation |
| DsAnalyzer.ApplyAppend | backend/app/services/ds_analyzer.py:188-202 | recording two runs of records one after the other is recording their concatenation |
| DsAnalyzer.AssignStep | backend/app/services/ds_analyzer.py:69-107 | one more target of an assignment extends its records by that target's records |
| DsAnalyzer.ApplyOne | backend/app/services/ds_analyzer.py:188-202 | one record: it is stamped with the current length, appended to the operations, added to the registry if it is a creation, and appended to its line's list, which starts empty |
| DsAnalyzer.IndexLookup | backend/app/services/ds_analyzer.py:200-202 | a line's list is its old list followed by exactly the new operations on that line, in order |
| DsAnalyzer.IndexKeys | backend/app/services/ds_analyzer.py:200-201 | a line has a list exactly when it had one before or a new operation is on it |
| DsAnalyzer.AnalyzeRun | backend/app/services/ds_analyzer.py:25-45 | one `analyze_code` run numbers its operations 0, 1, 2, ... and appends them to the line index, which it does not clear |
| DsAnalyzer.TwoRunsShareLineIndex | backend/app/services/ds_analyzer.py:22-45 | a second run restarts timestamps at 0, yet the line index still lists the first run's operations in front of the second's |
| DsAnalyzer.AssignRecords | backend/app/services/ds_analyzer.py:65-107 | an assignment records at most one entry per target, each on its line and for one of its plain-name targets |
| DsAnalyzer.CallRecords | backend/app/services/ds_analyzer.py:109-155 | a call records at most one entry, on its line; a `stack_push` only for `<name>.push(...)`, on that name |
| DsAnalyzer.NodeStackPush | backend/app/services/ds_analyzer.py:119-139 | a walked node records a `stack_push` only when it is a `.push(...)` call on that record's object and line |
| DsAnalyzer.StackPushOnlyFromPush | backend/app/services/ds_analyzer.py:119-139 | each `stack_push` of a walk was recorded by a `.push(...)` call of the walk, on the record's object and line, because `append` is caught as a list method first |
| DsAnalyzer.AssignRecordsKinds | backend/app/services/ds_analyzer.py:65-107 | an assignment records only `create_array` and `create_hashmap` |
| DsAnalyzer.AppendNeverStackPush | backend/app/services/ds_analyzer.py:120-131 | `.append(...)` on any name records exactly one `list_append` with the call's arguments |
| DsAnalyzer.DataStructureAnalyzer.constructor | backend/app/services/ds_analyzer.py:10-13 | a new recorder holds no operations, no registry entries and an empty line index |
| DsAnalyzer.DataStructureAnalyzer.AnalyzeCode | backend/app/services/ds_analyzer.py:15-48 | a parse error is re-raised with its prefix and leaves the state alone; otherwise the operations and registry are reset, every walked node is recorded in order, and the result holds the new state |
| DsAnalyzer.DataStructureAnalyzer.AnalyzeNode | backend/app/services/ds_analyzer.py:50-63 | the state after one node is the state after that node's records |
| DsAnalyzer.DataStructureAnalyzer.AnalyzeAssignment | backend/app/services/ds_analyzer.py:65-107 | the state after an assignment is the state after each target's records, in target order |
| DsAnalyzer.DataStructureAnalyzer.AnalyzeTarget | backend/app/services/ds_analyzer.py:70-107 | a plain-name target of a list display records one array creation with the element values and count, a dict display one dict creation, anything else nothing |
| DsAnalyzer.DataStructureAnalyzer.CollectElements | backend/app/services/ds_analyzer.py:75-82 | one value per element: a constant's value, `'?'` otherwise |
| DsAnalyzer.DataStructureAnalyzer.AnalyzeMethodCall | backend/app/services/ds_analyzer.py:109-155 | a list method on a name records `list_<method>`; `push`, or `append` on a stack-like name, records `stack_push`; `len(name)` records `get_length`; anything else records nothing |
| DsAnalyzer.DataStructureAnalyzer.AnalyzeListComprehension | backend/app/services/ds_analyzer.py:157-167 | a comprehension records one `list_comprehension` on `temp` |
| DsAnalyzer.DataStructureAnalyzer.ExtractCallArgs | backend/app/services/ds_analyzer.py:169-181 | one value per argument: a constant's value, `var:<id>` for a name, `unknown` otherwise |
| DsAnalyzer.DataStructureAnalyzer.AddOperation | backend/app/services/ds_analyzer.py:188-202 | the operation is stamped with the old length and appended, and appended to its line's list |
| DsTracer.ArrayList.constructor | backend/app/services/ds_analyzer.py:247-251 | each run's mock `arrays` list starts empty |
| DsTracer.ExtractVariables | backend/app/services/ds_analyzer.py:312-330 | a variable is reported only for a line that contains `=` and does not start with `=` |
| DsTracer.StepsFor | backend/app/services/ds_analyzer.py:253-271 | one step per executable line, every step holding the run's one shared list |
| DsTracer.UpdateDsState | backend/app/services/ds_analyzer.py:273-310 | returns the state it was given, and changes the shared list exactly as `UpdateArrays` says |
| DsTracer.SimulateExecution | backend/app/services/ds_analyzer.py:238-271 | the steps are the timeline of the code: one per executable line, all sharing one fresh list that holds the arrays after every line |
| DsTracer.TraceLine | backend/app/services/ds_analyzer.py:258-269 | one step holds the line's number, text, variables, label and metrics, and the shared list is updated by the line |
| DsTracer.KeptStep | backend/app/services/ds_analyzer.py:253-256 | a line is kept, numbered from 1, exactly when it is neither blank nor a comment once stripped |
| DsTracer.StepsForIndex | backend/app/services/ds_analyzer.py:258-260 | the `i`-th step has step number `i` and describes the `i`-th executable line |
| DsTracer.StepsForStep | backend/app/services/ds_analyzer.py:258-268 | one more executable line appends one step |
| DsTracer.ReplayStep | backend/app/services/ds_analyzer.py:262-269 | one more line applies that line's update to the shared list |
| DsTracer.ExecutionTracer.constructor | backend/app/services/ds_analyzer.py:210-213 | a new tracer has no steps, step 0 and a fresh empty recorder |
| DsTracer.ExecutionTracer.TraceExecution | backend/app/services/ds_analyzer.py:215-236 | a parse error is re-raised with both prefixes; otherwise the static analysis of the code, its timeline, and a step total equal to the timeline's length |
| DsTracer.KeptLines | backend/app/services/ds_analyzer.py:244-256 | kept lines carry in-range, strictly increasing line numbers and are the stripped, executable text of their source lines |
| DsTracer.KeptComplete | backend/app/services/ds_analyzer.py:253-256 | every executable line is kept |
| DsTracer.ParseFieldsOfRenders | backend/app/services/ds_analyzer.py:283 | parsing the renderings of a list of integers gives the list back |
| DsTracer.ParseRenderedList | backend/app/services/ds_analyzer.py:280-283 | splitting a comma-joined rendering and parsing the fields gives the list back, the empty list included |
| DsTracer.CreationLineDetected | backend/app/services/ds_analyzer.py:277 | `name = [body]` is taken for an array creation |
| DsTracer.CreationLineName | backend/app/services/ds_analyzer.py:279 | the created array's name is the trimmed text left of the first `=` |
| DsTracer.CreationLineValues | backend/app/services/ds_analyzer.py:280 | the values text is what lies between the first `[` and the next `]` |
| DsTracer.CreationRoundTrip | backend/app/services/ds_analyzer.py:277-289 | `name = [v1,v2,...]` appends the array `name` holding exactly those integers |
| DsTracer.AppendLine | backend/app/services/ds_analyzer.py:293-298 | `name.append(arg)` is not a creation line, and its receiver is `name` and its argument text is `arg` |
| DsTracer.AppendRoundTrip | backend/app/services/ds_analyzer.py:293-308 | `name.append(v)` appends `v` to every array called `name`, highlights the new index and leaves the others alone |
| DsTracer.TwoLinesKept | backend/app/services/ds_analyzer.py:244-256 | two executable lines joined by a newline become steps for lines 1 and 2 |
| DsTracer.CreationTextReplay | backend/app/services/ds_analyzer.py:277-289 | on an empty list, `name = [v]` creates the one array `name` holding `[v]` |
| DsTracer.AppendTextOnCreated | backend/app/services/ds_analyzer.py:293-308 | `name.append(w)` after `name = [v]` leaves `[v, w]` with index 1 highlighted |
| DsTracer.EarlierStepSeesLaterAppend | backend/app/services/ds_analyzer.py:247-269 | for `name = [v]` then `name.append(w)`, both steps hold the same list, and step 0 shows `[v, w]`, although the first line alone leaves `[v]` |
| DsTracer.ChangedStateIsArrayOperation | backend/app/services/ds_analyzer.py:332-343 | a line that changes the arrays is labelled as an array append, pop, insert or creation |
| DsTracer.AssignmentParts | backend/app/services/ds_analyzer.py:316-322 | `name = rest` is split at the first `=`, both sides stripped |
| DsTracer.IntAssignment | backend/app/services/ds_analyzer.py:323-324 | `name = <digits>` reports `name` with that integer |
| DsTracer.StringAssignment | backend/app/services/ds_analyzer.py:325-326 | `name = "text"` reports `name` with the text between the quotes |
| DsTracer.SuperscriptIsUnknown | backend/app/services/ds_analyzer.py:323-328 | `x = ²` passes `isdigit` but not `int`, so `x` is reported as `unknown` |
| DsTracer.OperationLabelled | backend/app/services/ds_analyzer.py:332-351 | the label is one of the nine; `Assignment` needs an `=`; `Expression` goes only to a line with no `=` that is no creation |
| DsTracer.ListCallsFirst | backend/app/services/ds_analyzer.py:336-342 | on the lower-cased line, `.append(` decides `Array Append` whatever else the line holds, then `.pop(`, then `.insert(` |
| DsTracer.CreationThenRest | backend/app/services/ds_analyzer.py:343-351 | with none of the three calls, a creation line is `Array Creation`; with none of the seven patterns, the label is `Assignment` exactly when the line holds `=`, else `Expression` |
| DsTracer.MetricsShape | backend/app/services/ds_analyzer.py:353-360 | the memory figure reads back as four times the step number plus `KB`, and the label is `O(n)` exactly below step 10 |
| DsAnalysisRoutes.LookupStep | backend/app/api/routes/ds_analysis.py:103-116 | fails with 400 `Invalid step number` exactly when the index is out of range; otherwise it returns that step and the timeline's length |
| DsAnalysisRoutes.StepNavigation | backend/app/api/routes/ds_analysis.py:110-116 | `hasNext`/`hasPrev` hold exactly when the next/previous request would succeed, neighbours agree, and both are false only in a one-step timeline |
| DsAnalysisRoutes.GetExecutionStep | backend/app/api/routes/ds_analysis.py:94-121 | a trace error becomes a 500 with the chained messages; the 400 passes through; a served step is the step of that executable line, its state showing the arrays after the whole program |
| DsAnalysisRoutes.ExtractAlgorithmMetrics | backend/app/api/routes/ds_analysis.py:274-295 | the loop computes the metrics summary of the timeline |
| DsAnalysisRoutes.MetricsAreMaxima | backend/app/api/routes/ds_analysis.py:278-295 | the totals are the largest counts of any step and are attained (0 for no steps), the step count is the length, the time label is quadratic exactly above 100 comparisons, and space is always `O(1)` |
| DsAnalysisRoutes.TracedMetrics | backend/app/api/routes/ds_analysis.py:274-295 | on a traced timeline of `n` steps the totals are `2(n-1)` comparisons and `(n-1)/2` swaps, quadratic from 52 steps on |
| DsAnalysisRoutes.CompareSpaceUsage | backend/app/api/routes/ds_analysis.py:298-306 | the sentence starts `Both algorithms use` exactly when the two labels, defaulting to `O(1)`, are equal |
| DsAnalysisRoutes.SpaceUsageNamesBoth | backend/app/api/routes/ds_analysis.py:303-306 | each label can be read back from the sentence |
| DsAnalysisRoutes.Compare | backend/app/api/routes/ds_analysis.py:159-168 | the verdict is `A` exactly when A makes fewer comparisons, else `B`; the ratio times `max(A, 1)` is B's comparisons |
| DsAnalysisRoutes.FasterIsStrict | backend/app/api/routes/ds_analysis.py:160-164 | the two sides are never both faster, and swapping them keeps `B` exactly on a tie |
| DsAnalysisRoutes.ComparisonOfTraces | backend/app/api/routes/ds_analysis.py:145-168 | for traced programs, A is faster exactly when it has fewer executable lines (an empty program counting as one), and the space sentence is always `Both algorithms use O(1) space` |
| DsAnalysisRoutes.TimelineOf | backend/app/api/routes/ds_analysis.py:138-142 | tracing gives the timeline of the code with a fresh shared list, or the chained error |
| DsAnalysisRoutes.Summarise | backend/app/api/routes/ds_analysis.py:145-169 | the reply holds both timelines, their metrics and the comparison, with the verdict decided by executable-line counts |
| DsAnalysisRoutes.CompareAlgorithms | backend/app/api/routes/ds_analysis.py:124-176 | a missing or empty sample gives 400; a trace error of A, then of B, gives a 500 with its message; it succeeds exactly otherwise, and then the reply is as above, A's and B's steps holding different lists |
| Flowchart.NodeNameInjective | backend/app/services/flowchart_generator.py:57 | distinct counters give distinct ids |
| Flowchart.IdsDistinct | backend/app/services/flowchart_generator.py:57-65 | node ids are pairwise distinct, so no entry of `nodes` is ever overwritten |
| Flowchart.NewNodeFacts | backend/app/services/flowchart_generator.py:53-67 | `create_node` appends one node with the given label, type and line, named `node<n>` for the `n` nodes already there, returns that id, keeps the edges and keeps ids sequential |
| Flowchart.NewEdgeFacts | backend/app/services/flowchart_generator.py:69-71 | `add_edge` appends one edge and keeps the nodes |
| Flowchart.ProcessFacts | backend/app/services/flowchart_generator.py:73-184 | a statement adds exactly its node and edge counts, keeps ids sequential and adds only edges between existing nodes; it returns the loop node, added first, for a loop, and the last node it added otherwise |
| Flowchart.BranchFacts | backend/app/services/flowchart_generator.py:96-105 | both branches of an `if` hang from the decision node and end at existing nodes |
| Flowchart.IfFacts | backend/app/services/flowchart_generator.py:86-112 | an `if` adds a decision node, its branches and a merge node, with three edges of its own, and returns the last node added |
| Flowchart.IfShape | backend/app/services/flowchart_generator.py:86-112 | an `if` starts with the decision node `If <test>?`, reached from the current node by an unlabelled edge, and ends with the returned `Merge` node |
| Flowchart.IfJoins | backend/app/services/flowchart_generator.py:96-112 | the last two edges of an `if` lead to the merge node: `Yes` from the end of the `if` branch, then `No` from the end of the `else` branch, or unlabelled from the decision node without an `else`; an empty branch is joined from the decision node, a non-empty one from a node it added |
| Flowchart.MergeFacts | backend/app/services/flowchart_generator.py:107-112 | the merge node, named after the nodes already there, and its two incoming edges are one node and two edges between existing nodes |
| Flowchart.HangFacts | backend/app/services/flowchart_generator.py:76-84 | a node hung from an existing node adds one node, named after the nodes already there, and one edge |
| Flowchart.LoopFacts | backend/app/services/flowchart_generator.py:114-151 | a `for` or `while` adds the loop node first, reached from the current node by an unlabelled edge, then its body, then, as its last edge, a `Continue` edge from the end of the body back to the loop node, which is returned |
| Flowchart.SimpleFacts | backend/app/services/flowchart_generator.py:153-184 | every other statement appends one `process` node with its label and line, and one unlabelled edge to it from the current node, and returns it |
| Flowchart.ProcessAllFacts | backend/app/services/flowchart_generator.py:97-99 | a body returns its start node when empty, else one of the nodes it added, and adds the sum of its statements' counts |
| Flowchart.GeneratedShape | backend/app/services/flowchart_generator.py:25-42 | the flowchart starts at `node0` START, ends at the END node reached by the last edge, has sequential ids, only edges between existing nodes, and counts fixed by the statements |
| Flowchart.MermaidLineCount | backend/app/services/flowchart_generator.py:186-211 | one header line, then one line per node, then one per edge, in order |
| Flowchart.MermaidLinesExactly | backend/app/services/flowchart_generator.py:188-209 | a list with the header, node lines and edge lines in place is the Mermaid line list |
| Flowchart.MermaidSplits | backend/app/services/flowchart_generator.py:211 | when no id or label holds a newline, splitting the text on newlines gives its lines back |
| Flowchart.FlowchartGenerator.constructor | backend/app/services/flowchart_generator.py:10-13 | a new generator is empty |
| Flowchart.FlowchartGenerator.Reset | backend/app/services/flowchart_generator.py:47-51 | `reset` empties the generator |
| Flowchart.FlowchartGenerator.CreateNode | backend/app/services/flowchart_generator.py:53-67 | the new node gets id `node<counter>`, is appended, and the counter moves on |
| Flowchart.FlowchartGenerator.AddEdge | backend/app/services/flowchart_generator.py:69-71 | one edge is appended |
| Flowchart.FlowchartGenerator.ProcessStatement | backend/app/services/flowchart_generator.py:73-184 | the new state and returned node are those `Process` gives |
| Flowchart.FlowchartGenerator.ProcessIf | backend/app/services/flowchart_generator.py:86-112 | the `if` case, as `Process` gives it |
| Flowchart.FlowchartGenerator.ProcessLoop | backend/app/services/flowchart_generator.py:114-151 | the `for` and `while` cases, as `Process` gives them |
| Flowchart.FlowchartGenerator.ProcessBody | backend/app/services/flowchart_generator.py:97-99 | a body's statements are processed in order, each hung from the previous result |
| Flowchart.FlowchartGenerator.CollectTargetNames | backend/app/services/flowchart_generator.py:78-80 | the plain-name targets, in order |
| Flowchart.FlowchartGenerator.GenerateFromCode | backend/app/services/flowchart_generator.py:15-45 | a parse error is re-raised with its prefix and changes nothing; otherwise the state is the generated flowchart and the result is its Mermaid text and nodes |
| Flowchart.FlowchartGenerator.GenerateMermaid | backend/app/services/flowchart_generator.py:186-211 | the text is the header, node lines and edge lines joined by newlines |
| DebugRoute.DebugCode | backend/app/api/routes/debug.py:19-71 | the route fails exactly on an action other than `start`, `step` and `stop`, then with status 500; every reply it gives has `success` set |
| DebugRoute.StartResets | backend/app/api/routes/debug.py:25-32 | `start` opens at line 1 with no variables, unfinished, whatever line was sent |
| DebugRoute.StepRule | backend/app/api/routes/debug.py:34-50 | `step` moves one line on (to 2 from no line or line 0), finishes exactly past line 10, and reports `result` as 1 exactly past line 3 |
| DebugRoute.StopFinishes | backend/app/api/routes/debug.py:52-59 | `stop` clears the line and finishes |
| DebugRoute.UnknownActionIs500 | backend/app/api/routes/debug.py:61-71 | the route fails exactly on an unknown action, and then with a 500 that wraps the 400's text |
| DebugRoute.DebugCodeCorrected | backend/app/api/routes/debug.py:61-71 | with the 400 re-raised, an unknown action is answered by the 400 itself; known actions are answered as before |
| DebugRoute.SessionFromStart | backend/app/api/routes/debug.py:34-50 | stepping from line 1 reaches line `1 + k` after `k` steps, and the tenth step's reply is the first finished one |
| PyText.StripShape | backend/app/services/ds_analyzer.py:254 | `strip()` leaves a text with no whitespace at either end, and leaves nothing exactly for all-whitespace text |
| PyText.StripPadded | backend/app/services/ds_analyzer.py:279 | stripping removes exactly the whitespace around a trimmed text |
| PyText.StripIdempotent | backend/app/services/ds_analyzer.py:254 | stripping twice is stripping once |
| PyText.FindSpec | backend/app/services/ds_analyzer.py:317 | `find` gives the first occurrence, or -1 exactly when there is none |
| PyText.JoinSplitOn | backend/app/services/ds_analyzer.py:244 | joining the fields of a split with its separator gives the text back |
| PyText.SplitOnJoin | backend/app/services/flowchart_generator.py:211 | splitting a join on a one-character separator that no part holds gives the parts back |
| PyText.LowerKeepsPattern | backend/app/services/ds_analyzer.py:334-340 | a lower-case pattern found in a line is still found after `lower()` |
| PyText.ParseIntOfIntToString | backend/app/services/ds_analyzer.py:303-306 | `int(str(i)) == i` |
| PyText.NatToStringInjective | backend/app/services/flowchart_generator.py:57 | distinct numbers render differently |
| PyText.ParseIntOfDecimals | backend/app/services/ds_analyzer.py:323-324 | ASCII digits always parse, to their decimal value |
| PyText.DecimalValueOfNatToString | backend/app/services/ds_analyzer.py:358 | the rendering of `n` reads back as `n` |

## Findings

| source | as written | input that shows it | evidently intended | confidence | as-written member | corrected member |
|---|---|---|---|---|---|---|
| backend/app/api/routes/debug.py:61-71 | the 400 for an unknown action is raised inside the `try` and caught by `except Exception`, so the client gets a 500 whose detail is `Debug error: 400: Unknown debug action: <action>` | action `"pause"` | a 400 `Unknown debug action: pause`, as the other routes get by re-raising `HTTPException` first | not executed | DebugRoute.UnknownActionIs500 | DebugRoute.DebugCodeCorrected |

## Left out

- `ast.parse`, `ast.walk` and `ast.unparse` are inputs, not computed. A parsed program arrives as `PyAst` values or as the parse error's message, and the walk order is given. The `hasattr(ast, "unparse")` fallbacks (`condition`, `iterable`) are not modelled.
- Exceptions other than a parse error are not modelled, such as recursion depth or memory errors in `analyze_code`, `trace_execution` and `generate_from_code`.
- `analyze_data_structures` runs the submitted code with `exec`, which cannot be modelled. The `/ds-templates` route returns constant text. Both are left out.
- `execute_code` in debug.py is a constant mock reply and is left out.
- The websocket, AI-assistant and flowchart routes and the application setup are not part of this model.
- Pydantic request validation is not modelled. Requests arrive as typed parameters. For `compare_algorithms`, a sample is present or absent (`Option<string>`); non-string values of `codeA`/`codeB` are not modelled.
- The `ds_state` keys `linkedLists`, `stacks`, `queues`, `trees` and `graphs` are never written, so they are not modelled. The same goes for the mock state's `stacks` and `variables` and the unused `analysis` argument of `_simulate_execution`.
- `str.lower` is modelled for A–Z and the Kelvin sign only, the characters whose lower case can complete an ASCII pattern. Other characters are kept as they are.
- `str.isdigit` is modelled for ASCII digits and the superscripts ¹²³; other Unicode digits are left out. `int()` is modelled for ASCII digits with single underscores between them; other Unicode decimal digits and the 4300-digit limit are left out.
- `str()` of an `HTTPException` is taken to be `"<status>: <detail>"`.
- `efficiencyRatio` is an exact `real`; floating-point rounding is not modelled.
- DsAnalysisRoutes.ExtractAlgorithmMetrics: the `isinstance(..., int)` guards are not modelled as checks. In the model every step's counts are integers, which is what the tracer produces.
- DsAnalysisRoutes.CompareAlgorithms: the `staticAnalysis` part of each trace is not carried into the reply. The route never returns it.
