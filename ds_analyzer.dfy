/**
  The static data-structure recorder (`DataStructureAnalyzer`): it walks the nodes of a
  parsed program, and for every list or dict assignment, list-method call, `len(name)`
  call and list comprehension it records an operation with a sequential timestamp and
  files it under its line number.
*/
module DsAnalyzer {
  import opened Results
  import opened PyText
  import opened PyAst

  /** An entry of `ds_state['arrays']`: a list display assigned to a name. */
  datatype ArrayInfo = ArrayInfo(name: string, values: seq<Literal>, line: int, operation: string)

  /** An entry of `ds_state['hashMaps']`: a dict display assigned to a name (its keys and values are always empty). */
  datatype HashMapInfo = HashMapInfo(name: string, line: int, operation: string)

  /** The `details` dictionary an operation carries. */
  datatype Details =
    | ArrayDetails(info: ArrayInfo)
    | HashMapDetails(mapInfo: HashMapInfo)
    | CallDetails(objectName: string, methodName: string, line: int, args: seq<Literal>)
    | LengthDetails(objectName: string, line: int)
    | ListCompDetails(line: int)

  /** An operation as a handler hands it to `_add_operation`, before it is stamped. */
  datatype Record = Record(opType: string, objectName: string, line: int, details: Details)

  /** A recorded operation: a record and its position in `ds_operations`. */
  datatype Operation = Operation(opType: string, objectName: string, line: int, details: Details, timestamp: nat)

  /** What `analyze_code` returns: `operations`, `initialState` (its array and dict lists) and `lineMapping`. */
  datatype Analysis = Analysis(
    operations: seq<Operation>,
    arrays: seq<ArrayInfo>,
    hashMaps: seq<HashMapInfo>,
    lineMapping: map<int, seq<Operation>>)

  /** The recorder's fields as one value. */
  datatype AnalyzerState = AnalyzerState(
    ops: seq<Operation>,
    arrays: seq<ArrayInfo>,
    hashMaps: seq<HashMapInfo>,
    lineMap: map<int, seq<Operation>>)

  // ---------------------------------------------------------------- what one node records

  /** An element of a list display: a constant's value, otherwise `'?'`. */
  function ElementValue(e: Expr): Literal
  {
    match e
    case Constant(v) => v
    case _ => StrLit("?")
  }

  /** A call argument: a constant's value, `'var:<id>'` for a name, otherwise `'unknown'`. */
  function ArgValue(e: Expr): Literal
  {
    match e
    case Constant(v) => v
    case Name(id) => StrLit("var:" + id)
    case _ => StrLit("unknown")
  }

  function ElementValues(elts: seq<Expr>): seq<Literal>
  {
    seq(|elts|, i requires 0 <= i < |elts| => ElementValue(elts[i]))
  }

  function ArgValues(args: seq<Expr>): seq<Literal>
  {
    seq(|args|, i requires 0 <= i < |args| => ArgValue(args[i]))
  }

  /** The prefix `analyze_code` puts before the message of any exception it re-raises. */
  const AnalyzeErrorPrefix := "Failed to analyze data structures: "

  /** The method names counted as list operations. */
  const ListMethods: seq<string> := ["append", "insert", "remove", "pop", "extend"]

  /** `_is_stack_usage`: the lower-cased name contains `stack`. */
  predicate IsStackUsage(varName: string)
  {
    Contains(Lower(varName), "stack")
  }

  function ArrayCreated(name: string, elts: seq<Expr>, line: int): ArrayInfo
  {
    ArrayInfo(name, ElementValues(elts), line,
      "Created array " + name + " with " + NatToString(|elts|) + " elements")
  }

  /** What one target of an assignment records. */
  function TargetRecords(line: int, target: Target, value: Expr): seq<Record>
  {
    match target
    case OtherTarget => []
    case NameTarget(name) =>
      match value
      case ListDisplay(elts) =>
        [Record("create_array", name, line, ArrayDetails(ArrayCreated(name, elts, line)))]
      case DictDisplay =>
        [Record("create_hashmap", name, line,
          HashMapDetails(HashMapInfo(name, line, "Created dictionary " + name)))]
      case _ => []
  }

  /**
    What an assignment records: each target's records, in target order; at most one per
    target, each on the assignment's line and for a plain-name target.
  */
  function AssignRecords(line: int, targets: seq<Target>, value: Expr): (rs: seq<Record>)
    ensures |rs| <= |targets|
    ensures forall r :: r in rs ==> r.line == line && NameTarget(r.objectName) in targets
  {
    if targets == [] then []
    else AssignRecords(line, targets[..|targets| - 1], value) + TargetRecords(line, targets[|targets| - 1], value)
  }

  /**
    What a call records: at most one record, on the call's line; a `stack_push` only for
    a method named `push` called on a plain name, the record's object.
  */
  function CallRecords(line: int, func: Callee, args: seq<Expr>): (rs: seq<Record>)
    ensures |rs| <= 1
    ensures forall r :: r in rs ==> r.line == line
    ensures rs != [] && rs[0].opType == "stack_push" ==> func == AttributeCallee(Name(rs[0].objectName), "push")
  {
    match func
    case AttributeCallee(base, methodName) =>
      if !base.Name? then []
      else if methodName in ListMethods then
        [Record("list_" + methodName, base.id, line, CallDetails(base.id, methodName, line, ArgValues(args)))]
      else if methodName == "push" || (methodName == "append" && IsStackUsage(base.id)) then
        [Record("stack_push", base.id, line, CallDetails(base.id, "push", line, ArgValues(args)))]
      else []
    case NameCallee(funcName) =>
      if funcName == "len" && |args| > 0 && args[0].Name? then
        [Record("get_length", args[0].id, line, LengthDetails(args[0].id, line))]
      else []
    case OtherCallee => []
  }

  /** `_analyze_node`: what one walked node records. */
  function NodeRecords(n: WalkNode): seq<Record>
  {
    match n
    case AssignNode(line, targets, value) => AssignRecords(line, targets, value)
    case CallNode(line, func, args) => CallRecords(line, func, args)
    case ListCompNode(line) => [Record("list_comprehension", "temp", line, ListCompDetails(line))]
    case OtherNode => []
  }

  /** What a whole walk records, node by node. */
  function WalkRecords(walk: seq<WalkNode>): seq<Record>
  {
    if walk == [] then [] else WalkRecords(walk[..|walk| - 1]) + NodeRecords(walk[|walk| - 1])
  }

  // ---------------------------------------------------------------- the recorder's state

  /** The array entries that a run of records adds to `ds_state['arrays']`. */
  function ArraysOf(rs: seq<Record>): seq<ArrayInfo>
  {
    if rs == [] then []
    else
      var last := rs[|rs| - 1];
      ArraysOf(rs[..|rs| - 1]) + (if last.details.ArrayDetails? then [last.details.info] else [])
  }

  /** The dict entries that a run of records adds to `ds_state['hashMaps']`. */
  function HashMapsOf(rs: seq<Record>): seq<HashMapInfo>
  {
    if rs == [] then []
    else
      var last := rs[|rs| - 1];
      HashMapsOf(rs[..|rs| - 1]) + (if last.details.HashMapDetails? then [last.details.mapInfo] else [])
  }

  /**
    Records stamped with the positions they take in `ds_operations` from `start` on: the
    `i`-th operation carries the `i`-th record's fields and the timestamp `start + i`.
  */
  function Stamp(rs: seq<Record>, start: nat): (ops: seq<Operation>)
    ensures |ops| == |rs|
    ensures forall i :: 0 <= i < |rs| ==>
      && ops[i].timestamp == start + i && ops[i].line == rs[i].line
      && ops[i].opType == rs[i].opType && ops[i].objectName == rs[i].objectName
      && ops[i].details == rs[i].details
  {
    seq(|rs|, i requires 0 <= i < |rs| =>
      Operation(rs[i].opType, rs[i].objectName, rs[i].line, rs[i].details, start + i))
  }

  /** `line_to_operations.get(l, [])`. */
  function Lookup(m: map<int, seq<Operation>>, l: int): seq<Operation>
  {
    if l in m then m[l] else []
  }

  /** `line_to_operations` after filing each of `ops` under its line, in order. */
  function Index(m: map<int, seq<Operation>>, ops: seq<Operation>): map<int, seq<Operation>>
  {
    if ops == [] then m
    else
      var m1 := Index(m, ops[..|ops| - 1]);
      var op := ops[|ops| - 1];
      m1[op.line := Lookup(m1, op.line) + [op]]
  }

  /** The operations of `ops` on line `l`, in order. */
  function OnLine(ops: seq<Operation>, l: int): (r: seq<Operation>)
    ensures forall op :: op in r <==> op in ops && op.line == l
  {
    if ops == [] then []
    else OnLine(ops[..|ops| - 1], l) + (if ops[|ops| - 1].line == l then [ops[|ops| - 1]] else [])
  }

  /** The recorder's state after `_add_operation` (and the registry appends) for each record in turn. */
  function Apply(st: AnalyzerState, rs: seq<Record>): AnalyzerState
  {
    var stamped := Stamp(rs, |st.ops|);
    AnalyzerState(st.ops + stamped, st.arrays + ArraysOf(rs), st.hashMaps + HashMapsOf(rs), Index(st.lineMap, stamped))
  }

  /** What `analyze_code` clears: the operations and the registry, but not the line index. */
  function Reset(st: AnalyzerState): AnalyzerState
  {
    AnalyzerState([], [], [], st.lineMap)
  }

  // ---------------------------------------------------------------- lemmas

  lemma StampAppend(a: seq<Record>, b: seq<Record>, start: nat)
    ensures Stamp(a + b, start) == Stamp(a, start) + Stamp(b, start + |a|)
  {
  }

  lemma {:induction false} IndexAppend(m: map<int, seq<Operation>>, a: seq<Operation>, b: seq<Operation>)
    ensures Index(m, a + b) == Index(Index(m, a), b)
  {
    if b == [] {
      assert a + b == a;
    } else {
      assert (a + b)[..|a + b| - 1] == a + b[..|b| - 1];
      IndexAppend(m, a, b[..|b| - 1]);
    }
  }

  lemma {:induction false} ArraysOfAppend(a: seq<Record>, b: seq<Record>)
    ensures ArraysOf(a + b) == ArraysOf(a) + ArraysOf(b)
    ensures HashMapsOf(a + b) == HashMapsOf(a) + HashMapsOf(b)
  {
    if b == [] {
      assert a + b == a;
    } else {
      assert (a + b)[..|a + b| - 1] == a + b[..|b| - 1];
      ArraysOfAppend(a, b[..|b| - 1]);
    }
  }

  lemma LineMapAppend(st: AnalyzerState, a: seq<Record>, b: seq<Record>)
    ensures Index(Index(st.lineMap, Stamp(a, |st.ops|)), Stamp(b, |st.ops| + |a|)) == Index(st.lineMap, Stamp(a + b, |st.ops|))
  {
    StampAppend(a, b, |st.ops|);
    IndexAppend(st.lineMap, Stamp(a, |st.ops|), Stamp(b, |st.ops| + |a|));
  }

  lemma OpsAppend(st: AnalyzerState, a: seq<Record>, b: seq<Record>)
    ensures (st.ops + Stamp(a, |st.ops|)) + Stamp(b, |st.ops| + |a|) == st.ops + Stamp(a + b, |st.ops|)
  {
    StampAppend(a, b, |st.ops|);
  }

  lemma RegistryAppend(st: AnalyzerState, a: seq<Record>, b: seq<Record>)
    ensures (st.arrays + ArraysOf(a)) + ArraysOf(b) == st.arrays + ArraysOf(a + b)
    ensures (st.hashMaps + HashMapsOf(a)) + HashMapsOf(b) == st.hashMaps + HashMapsOf(a + b)
  {
    ArraysOfAppend(a, b);
    assert (st.arrays + ArraysOf(a)) + ArraysOf(b) == st.arrays + (ArraysOf(a) + ArraysOf(b));
    assert (st.hashMaps + HashMapsOf(a)) + HashMapsOf(b) == st.hashMaps + (HashMapsOf(a) + HashMapsOf(b));
  }

  /** Recording two runs of records one after the other is recording their concatenation. */
  lemma {:induction false} ApplyAppend(st: AnalyzerState, a: seq<Record>, b: seq<Record>)
    ensures Apply(Apply(st, a), b) == Apply(st, a + b)
  {
    var mid := Apply(st, a);
    var lhs, rhs := Apply(mid, b), Apply(st, a + b);
    assert |mid.ops| == |st.ops| + |a|;
    assert lhs.ops == rhs.ops by {
      OpsAppend(st, a, b);
    }
    assert lhs.arrays == rhs.arrays && lhs.hashMaps == rhs.hashMaps by {
      RegistryAppend(st, a, b);
    }
    assert lhs.lineMap == rhs.lineMap by {
      LineMapAppend(st, a, b);
    }
  }

  /** Recording one more target's records extends the assignment's records by them. */
  lemma AssignStep(st: AnalyzerState, line: int, targets: seq<Target>, value: Expr, i: nat)
    requires i < |targets|
    ensures Apply(Apply(st, AssignRecords(line, targets[..i], value)), TargetRecords(line, targets[i], value))
      == Apply(st, AssignRecords(line, targets[..i + 1], value))
  {
    var done, next := AssignRecords(line, targets[..i], value), TargetRecords(line, targets[i], value);
    assert AssignRecords(line, targets[..i + 1], value) == done + next by {
      assert targets[..i + 1][..i] == targets[..i];
    }
    ApplyAppend(st, done, next);
  }

  /** Recording one record: it is stamped with the current length, appended, and filed under its line. */
  lemma ApplyOne(st: AnalyzerState, r: Record)
    ensures var op := Operation(r.opType, r.objectName, r.line, r.details, |st.ops|);
      Apply(st, [r]) == AnalyzerState(
        st.ops + [op],
        st.arrays + (if r.details.ArrayDetails? then [r.details.info] else []),
        st.hashMaps + (if r.details.HashMapDetails? then [r.details.mapInfo] else []),
        st.lineMap[r.line := Lookup(st.lineMap, r.line) + [op]])
  {
    var op := Operation(r.opType, r.objectName, r.line, r.details, |st.ops|);
    assert Stamp([r], |st.ops|) == [op];
    assert [r][..0] == [];
    assert [op][..0] == [];
    assert Index(st.lineMap, [op]) == st.lineMap[r.line := Lookup(st.lineMap, r.line) + [op]];
    assert ArraysOf([r]) == [] + (if r.details.ArrayDetails? then [r.details.info] else []);
    assert HashMapsOf([r]) == [] + (if r.details.HashMapDetails? then [r.details.mapInfo] else []);
  }

  /** `line_to_operations[l]` is what it held before, followed by exactly the new operations on line `l`, in order. */
  lemma {:induction false} IndexLookup(m: map<int, seq<Operation>>, ops: seq<Operation>, l: int)
    ensures Lookup(Index(m, ops), l) == Lookup(m, l) + OnLine(ops, l)
  {
    if ops != [] {
      IndexLookup(m, ops[..|ops| - 1], l);
    }
  }

  /** A line has an entry in the index exactly when it had one before or a new operation is on it. */
  lemma {:induction false} IndexKeys(m: map<int, seq<Operation>>, ops: seq<Operation>, l: int)
    ensures l in Index(m, ops) <==> l in m || exists op :: op in ops && op.line == l
  {
    if ops != [] {
      var init := ops[..|ops| - 1];
      IndexKeys(m, init, l);
      assert ops == init + [ops[|ops| - 1]];
      if exists op :: op in init && op.line == l {
        var op :| op in init && op.line == l;
        assert op in ops;
      }
    }
  }

  /**
    One `analyze_code` run: timestamps are 0, 1, 2, ... in recording order, and the line
    index keeps every list from earlier runs and extends it with this run's operations on
    that line.
  */
  lemma AnalyzeRun(st: AnalyzerState, walk: seq<WalkNode>, l: int)
    ensures var after := Apply(Reset(st), WalkRecords(walk));
      && |after.ops| == |WalkRecords(walk)|
      && (forall i :: 0 <= i < |after.ops| ==> after.ops[i].timestamp == i)
      && Lookup(after.lineMap, l) == Lookup(st.lineMap, l) + OnLine(after.ops, l)
  {
    var rs := WalkRecords(walk);
    var after := Apply(Reset(st), rs);
    assert after.ops == [] + Stamp(rs, 0) == Stamp(rs, 0);
    assert after.lineMap == Index(st.lineMap, Stamp(rs, 0));
    IndexLookup(st.lineMap, after.ops, l);
  }

  /**
    Two runs on one recorder: the second run's operations start again at timestamp 0, yet
    the line index still lists the first run's operations in front of the second's.
  */
  lemma TwoRunsShareLineIndex(st: AnalyzerState, walkA: seq<WalkNode>, walkB: seq<WalkNode>, l: int)
    ensures var afterA := Apply(Reset(st), WalkRecords(walkA));
      var afterB := Apply(Reset(afterA), WalkRecords(walkB));
      && afterB.ops == Stamp(WalkRecords(walkB), 0)
      && Lookup(afterB.lineMap, l) == Lookup(st.lineMap, l) + OnLine(afterA.ops, l) + OnLine(afterB.ops, l)
  {
    var afterA := Apply(Reset(st), WalkRecords(walkA));
    var afterB := Apply(Reset(afterA), WalkRecords(walkB));
    assert afterA.ops == [] + Stamp(WalkRecords(walkA), 0) == Stamp(WalkRecords(walkA), 0);
    assert afterB.ops == [] + Stamp(WalkRecords(walkB), 0) == Stamp(WalkRecords(walkB), 0);
    IndexLookup(st.lineMap, afterA.ops, l);
    IndexLookup(afterA.lineMap, afterB.ops, l);
  }

  /**
    `n` is a call of a method named `push` on the plain name `r.objectName`, on the line
    of `r`.
  */
  predicate PushedBy(n: WalkNode, r: Record)
  {
    n.CallNode? && n.func == AttributeCallee(Name(r.objectName), "push") && n.line == r.line
  }

  /** A node records a `stack_push` only when it is a `.push(...)` call on that record's object and line. */
  lemma NodeStackPush(n: WalkNode, j: nat)
    requires j < |NodeRecords(n)| && NodeRecords(n)[j].opType == "stack_push"
    ensures PushedBy(n, NodeRecords(n)[j])
  {
    match n
    case AssignNode(line, targets, value) =>
      AssignRecordsKinds(line, targets, value, j);
      assert false;
    case CallNode(line, func, args) =>
      assert NodeRecords(n)[j] in CallRecords(line, func, args);
    case ListCompNode(_) =>
    case OtherNode =>
  }

  /**
    `.append(...)` on a plain name is always a `list_append`; because the list-method test
    comes first, each `stack_push` of a walk was recorded by a `.push(...)` call of the
    walk, on that record's object and line.
  */
  lemma {:induction false} StackPushOnlyFromPush(walk: seq<WalkNode>, i: nat)
    requires i < |WalkRecords(walk)| && WalkRecords(walk)[i].opType == "stack_push"
    ensures exists k ::
      0 <= k < |walk| && PushedBy(walk[k], WalkRecords(walk)[i]) && WalkRecords(walk)[i] in NodeRecords(walk[k])
  {
    var init := WalkRecords(walk[..|walk| - 1]);
    var last := walk[|walk| - 1];
    assert WalkRecords(walk) == init + NodeRecords(last);
    if i < |init| {
      StackPushOnlyFromPush(walk[..|walk| - 1], i);
      var k :| 0 <= k < |walk| - 1 && PushedBy(walk[..|walk| - 1][k], init[i])
        && init[i] in NodeRecords(walk[..|walk| - 1][k]);
      assert walk[k] == walk[..|walk| - 1][k];
    } else {
      NodeStackPush(last, i - |init|);
      assert WalkRecords(walk)[i] == NodeRecords(last)[i - |init|];
    }
  }

  /** An assignment records only array and dict creations. */
  lemma {:induction false} AssignRecordsKinds(line: int, targets: seq<Target>, value: Expr, i: nat)
    requires i < |AssignRecords(line, targets, value)|
    ensures AssignRecords(line, targets, value)[i].opType in {"create_array", "create_hashmap"}
  {
    var init := AssignRecords(line, targets[..|targets| - 1], value);
    if i < |init| {
      AssignRecordsKinds(line, targets[..|targets| - 1], value, i);
    }
  }

  /** A method named `append` yields `list_append` and never `stack_push`, whatever the receiver is called. */
  lemma AppendNeverStackPush(line: int, obj: string, args: seq<Expr>)
    ensures CallRecords(line, AttributeCallee(Name(obj), "append"), args) ==
      [Record("list_append", obj, line, CallDetails(obj, "append", line, ArgValues(args)))]
  {
    assert ListMethods[0] == "append";
    assert "list_" + "append" == "list_append";
  }

  // ---------------------------------------------------------------- the class

  class DataStructureAnalyzer {
    var dsOperations: seq<Operation>
    var arrays: seq<ArrayInfo>
    var hashMaps: seq<HashMapInfo>
    var lineToOperations: map<int, seq<Operation>>

    function State(): AnalyzerState
      reads this
    {
      AnalyzerState(dsOperations, arrays, hashMaps, lineToOperations)
    }

    constructor ()
      ensures State() == AnalyzerState([], [], [], map[])
    {
      dsOperations := [];
      arrays := [];
      hashMaps := [];
      lineToOperations := map[];
    }

    /**
      `analyze_code`. The program arrives already parsed, as the nodes `ast.walk` yields,
      or as the message of the exception `ast.parse` raised; in that case nothing is reset.
    */
    method AnalyzeCode(parsed: Result<seq<WalkNode>, string>) returns (r: Result<Analysis, string>)
      modifies this
      ensures parsed.Failure? ==>
        && State() == old(State())
        && r == Failure(AnalyzeErrorPrefix + parsed.error)
      ensures parsed.Success? ==>
        && State() == Apply(Reset(old(State())), WalkRecords(parsed.value))
        && r == Success(Analysis(dsOperations, arrays, hashMaps, lineToOperations))
    {
      if parsed.Failure? {
        return Failure(AnalyzeErrorPrefix + parsed.error);
      }
      var walk := parsed.value;
      ghost var st0 := Reset(State());
      dsOperations := [];
      arrays := [];
      hashMaps := [];
      for i := 0 to |walk|
        invariant State() == Apply(st0, WalkRecords(walk[..i]))
      {
        assert walk[..i + 1][..i] == walk[..i];
        AnalyzeNode(walk[i]);
        ApplyAppend(st0, WalkRecords(walk[..i]), NodeRecords(walk[i]));
      }
      assert walk[..|walk|] == walk;
      r := Success(Analysis(dsOperations, arrays, hashMaps, lineToOperations));
    }

    /** `_analyze_node`. */
    method AnalyzeNode(n: WalkNode)
      modifies this
      ensures State() == Apply(old(State()), NodeRecords(n))
    {
      match n
      case AssignNode(line, targets, value) =>
        AnalyzeAssignment(line, targets, value);
      case CallNode(line, func, args) =>
        AnalyzeMethodCall(line, func, args);
      case ListCompNode(line) =>
        AnalyzeListComprehension(line);
      case OtherNode =>
    }

    /** `_analyze_assignment`: one array or dict creation per plain-name target. */
    method AnalyzeAssignment(line: int, targets: seq<Target>, value: Expr)
      modifies this
      ensures State() == Apply(old(State()), AssignRecords(line, targets, value))
    {
      ghost var st0 := State();
      for i := 0 to |targets|
        invariant State() == Apply(st0, AssignRecords(line, targets[..i], value))
      {
        AnalyzeTarget(line, targets[i], value);
        AssignStep(st0, line, targets, value, i);
      }
      assert targets[..|targets|] == targets;
    }

    /** The body of the target loop of `_analyze_assignment`. */
    method AnalyzeTarget(line: int, target: Target, value: Expr)
      modifies this
      ensures State() == Apply(old(State()), TargetRecords(line, target, value))
    {
      ghost var before := State();
      ghost var recs := TargetRecords(line, target, value);
      match target {
        case NameTarget(varName) =>
          match value {
            case ListDisplay(elts) =>
              var elements := CollectElements(elts);
              assert elements == ElementValues(elts);
              var info := ArrayInfo(varName, elements, line,
                "Created array " + varName + " with " + NatToString(|elements|) + " elements");
              arrays := arrays + [info];
              AddOperation("create_array", varName, line, ArrayDetails(info));
              ApplyOne(before, recs[0]);
            case DictDisplay =>
              var info := HashMapInfo(varName, line, "Created dictionary " + varName);
              hashMaps := hashMaps + [info];
              AddOperation("create_hashmap", varName, line, HashMapDetails(info));
              ApplyOne(before, recs[0]);
            case _ =>
          }
        case OtherTarget =>
      }
    }

    /** The element loop of `_analyze_assignment`. */
    method CollectElements(elts: seq<Expr>) returns (elements: seq<Literal>)
      ensures |elements| == |elts|
      ensures forall i :: 0 <= i < |elts| ==> elements[i] == ElementValue(elts[i])
    {
      elements := [];
      for i := 0 to |elts|
        invariant |elements| == i
        invariant forall j :: 0 <= j < i ==> elements[j] == ElementValue(elts[j])
      {
        match elts[i] {
          case Constant(v) => elements := elements + [v];
          case _ => elements := elements + [StrLit("?")];
        }
      }
    }

    /** `_analyze_method_call`. */
    method AnalyzeMethodCall(line: int, func: Callee, args: seq<Expr>)
      modifies this
      ensures State() == Apply(old(State()), CallRecords(line, func, args))
    {
      ghost var before := State();
      ghost var recs := CallRecords(line, func, args);
      match func {
        case AttributeCallee(base, methodName) =>
          if base.Name? {
            var objName := base.id;
            if methodName in ListMethods {
              var callArgs := ExtractCallArgs(args);
              assert callArgs == ArgValues(args);
              AddOperation("list_" + methodName, objName, line, CallDetails(objName, methodName, line, callArgs));
              ApplyOne(before, recs[0]);
            } else if methodName == "push" || (methodName == "append" && IsStackUsage(objName)) {
              var callArgs := ExtractCallArgs(args);
              assert callArgs == ArgValues(args);
              AddOperation("stack_push", objName, line, CallDetails(objName, "push", line, callArgs));
              ApplyOne(before, recs[0]);
            } else {
              assert recs == [];
            }
          } else {
            assert recs == [];
          }
        case NameCallee(funcName) =>
          if funcName == "len" && |args| > 0 && args[0].Name? {
            var objName := args[0].id;
            AddOperation("get_length", objName, line, LengthDetails(objName, line));
            ApplyOne(before, recs[0]);
          } else {
            assert recs == [];
          }
        case OtherCallee =>
          assert recs == [];
      }
    }

    /** `_analyze_list_comprehension`. */
    method AnalyzeListComprehension(line: int)
      modifies this
      ensures State() == Apply(old(State()), [Record("list_comprehension", "temp", line, ListCompDetails(line))])
    {
      ghost var before := State();
      AddOperation("list_comprehension", "temp", line, ListCompDetails(line));
      ApplyOne(before, Record("list_comprehension", "temp", line, ListCompDetails(line)));
    }

    /** `_extract_call_args`. */
    method ExtractCallArgs(args: seq<Expr>) returns (r: seq<Literal>)
      ensures |r| == |args|
      ensures forall i :: 0 <= i < |args| ==> r[i] == ArgValue(args[i])
    {
      r := [];
      for i := 0 to |args|
        invariant |r| == i
        invariant forall j :: 0 <= j < i ==> r[j] == ArgValue(args[j])
      {
        match args[i] {
          case Constant(v) => r := r + [v];
          case Name(id) => r := r + [StrLit("var:" + id)];
          case _ => r := r + [StrLit("unknown")];
        }
      }
    }

    /** `_add_operation`: stamp with the current length, append, and file under the line. */
    method AddOperation(opType: string, obj: string, line: int, details: Details)
      modifies this`dsOperations, this`lineToOperations
      ensures dsOperations == old(dsOperations) + [Operation(opType, obj, line, details, |old(dsOperations)|)]
      ensures lineToOperations == old(lineToOperations)[line :=
        Lookup(old(lineToOperations), line) + [Operation(opType, obj, line, details, |old(dsOperations)|)]]
    {
      var operation := Operation(opType, obj, line, details, |dsOperations|);
      dsOperations := dsOperations + [operation];
      if line !in lineToOperations {
        lineToOperations := lineToOperations[line := []];
      }
      lineToOperations := lineToOperations[line := lineToOperations[line] + [operation]];
    }
  }
}
