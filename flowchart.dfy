/**
  The flowchart builder (`FlowchartGenerator`). A counter hands out node ids `node0`,
  `node1`, ...; a walk over the statements of a parsed program creates nodes and edges,
  threading the id of the node the next statement hangs from; and a serialiser writes
  the result as Mermaid text, one header line, one line per node, one line per edge.

  The generator's `nodes` dictionary is keyed by id. Ids are handed out in increasing
  order and the dictionary is cleared whenever the counter is, so no key is ever
  assigned twice and the dictionary is the sequence of its nodes in insertion order.
*/
module Flowchart {
  import opened Results
  import opened PyText
  import opened PyAst

  datatype Node = Node(id: string, labelText: string, nodeType: string, line: Option<int>)

  datatype Edge = Edge(from: string, to: string, labelText: string)

  /** The generator's fields: the id counter, the nodes in insertion order, the edges. */
  datatype Graph = Graph(nodeId: nat, nodes: seq<Node>, edges: seq<Edge>)

  /** The state `reset` leaves. */
  const Empty := Graph(0, [], [])

  /** The id of the `k`-th node created since the last reset. */
  function NodeName(k: nat): string
  {
    "node" + NatToString(k)
  }

  // ---------------------------------------------------------------- the builder, as functions

  /** `create_node`: the new id is the counter's value, which then moves on. */
  function NewNode(g: Graph, labelText: string, nodeType: string, line: Option<int>): (Graph, string)
  {
    var id := NodeName(g.nodeId);
    (Graph(g.nodeId + 1, g.nodes + [Node(id, labelText, nodeType, line)], g.edges), id)
  }

  /** `add_edge`. */
  function NewEdge(g: Graph, from: string, to: string, labelText: string): Graph
  {
    Graph(g.nodeId, g.nodes, g.edges + [Edge(from, to, labelText)])
  }

  /** One `process` node hung from `cur` by an unlabelled edge; the new node is the result. */
  function Simple(g: Graph, labelText: string, line: Option<int>, cur: string): (Graph, string)
  {
    var (g1, n) := NewNode(g, labelText, "process", line);
    (NewEdge(g1, cur, n, ""), n)
  }

  /** The names of the plain-name targets of an assignment, in order. */
  function TargetNames(targets: seq<Target>): seq<string>
  {
    if targets == [] then []
    else
      var last := targets[|targets| - 1];
      TargetNames(targets[..|targets| - 1]) + (if last.NameTarget? then [last.id] else [])
  }

  /** The name shown for a called function. */
  function CalleeName(func: Callee): string
  {
    if func.NameCallee? then func.id else "function"
  }

  /** `process_statement`: the graph after `s` is hung from `cur`, and the node the next statement hangs from. */
  function Process(g: Graph, s: Stmt, cur: string): (Graph, string)
    decreases s, 1
  {
    match s
    case Assign(line, targets) => Simple(g, "Assign: " + Join(", ", TargetNames(targets)), Some(line), cur)
    case If(line, test, body, orelse) =>
      var (g1, decision) := NewNode(g, "If " + test + "?", "decision", Some(line));
      var (g2, ifEnd) := ProcessAll(NewEdge(g1, cur, decision, ""), body, decision);
      var (g3, elseEnd) := if orelse != [] then ProcessAll(g2, orelse, decision) else (g2, decision);
      var (g4, merge) := NewNode(g3, "Merge", "process", None);
      (NewEdge(NewEdge(g4, ifEnd, merge, "Yes"), elseEnd, merge, if orelse != [] then "No" else ""), merge)
    case For(line, target, iter, body) =>
      var name := if target.NameTarget? then target.id else "item";
      var (g1, loop) := NewNode(g, "For " + name + " in " + iter, "decision", Some(line));
      var (g2, bodyEnd) := ProcessAll(NewEdge(g1, cur, loop, ""), body, loop);
      (NewEdge(g2, bodyEnd, loop, "Continue"), loop)
    case While(line, test, body) =>
      var (g1, loop) := NewNode(g, "While " + test + "?", "decision", Some(line));
      var (g2, bodyEnd) := ProcessAll(NewEdge(g1, cur, loop, ""), body, loop);
      (NewEdge(g2, bodyEnd, loop, "Continue"), loop)
    case FunctionDef(line, name) => Simple(g, "Function: " + name, Some(line), cur)
    case Return(line) => Simple(g, "Return", Some(line), cur)
    case CallStmt(line, func) => Simple(g, "Call: " + CalleeName(func) + "()", Some(line), cur)
    case OtherStmt(typeName, line) => Simple(g, "Statement: " + typeName, Some(line), cur)
  }

  /** The statements of a body processed in order, each hung from the node the previous one returned. */
  function ProcessAll(g: Graph, ss: seq<Stmt>, cur: string): (Graph, string)
    decreases ss, 0
  {
    if ss == [] then (g, cur)
    else
      var (g1, c1) := ProcessAll(g, ss[..|ss| - 1], cur);
      Process(g1, ss[|ss| - 1], c1)
  }

  /** `generate_from_code` after a successful parse: START, the module body, END. */
  function Generated(body: seq<Stmt>): Graph
  {
    var (g1, start) := NewNode(Empty, "START", "start", None);
    var (g2, cur) := ProcessAll(g1, body, start);
    var (g3, end) := NewNode(g2, "END", "end", None);
    NewEdge(g3, cur, end, "")
  }

  // ---------------------------------------------------------------- Mermaid text

  /** A node's line: a stadium for start and end, a rhombus for a decision, a box otherwise. */
  function NodeLine(n: Node): string
  {
    if n.nodeType == "start" || n.nodeType == "end" then "    " + n.id + "([" + n.labelText + "])"
    else if n.nodeType == "decision" then "    " + n.id + "{" + n.labelText + "}"
    else "    " + n.id + "[" + n.labelText + "]"
  }

  /** An edge's line: the label between bars when there is one. */
  function EdgeLine(e: Edge): string
  {
    if e.labelText != [] then "    " + e.from + " -->|" + e.labelText + "| " + e.to
    else "    " + e.from + " --> " + e.to
  }

  /** The `lines` list `generate_mermaid` builds. */
  function MermaidLines(g: Graph): seq<string>
  {
    ["flowchart TD"]
      + seq(|g.nodes|, i requires 0 <= i < |g.nodes| => NodeLine(g.nodes[i]))
      + seq(|g.edges|, i requires 0 <= i < |g.edges| => EdgeLine(g.edges[i]))
  }

  /** `generate_mermaid`: the lines joined by newlines. */
  function Mermaid(g: Graph): string
  {
    Join("\n", MermaidLines(g))
  }

  // ---------------------------------------------------------------- invariants

  /** The `k`-th node is `node<k>` and the counter is the number of nodes. */
  predicate Sequential(g: Graph)
  {
    g.nodeId == |g.nodes| && forall k :: 0 <= k < |g.nodes| ==> g.nodes[k].id == NodeName(k)
  }

  /** `id` is the id of a node of `g`. */
  predicate HasNode(g: Graph, id: string)
  {
    exists k :: 0 <= k < |g.nodes| && g.nodes[k].id == id
  }

  /** Every edge joins two nodes of the graph. */
  predicate Closed(g: Graph)
  {
    forall e :: e in g.edges ==> HasNode(g, e.from) && HasNode(g, e.to)
  }

  /** How many nodes a statement adds. */
  function NodeCount(s: Stmt): nat
    decreases s, 1
  {
    match s
    case If(_, _, body, orelse) => 2 + BlockNodes(body) + BlockNodes(orelse)
    case For(_, _, _, body) => 1 + BlockNodes(body)
    case While(_, _, body) => 1 + BlockNodes(body)
    case _ => 1
  }

  function BlockNodes(ss: seq<Stmt>): nat
    decreases ss, 0
  {
    if ss == [] then 0 else BlockNodes(ss[..|ss| - 1]) + NodeCount(ss[|ss| - 1])
  }

  /** How many edges a statement adds. */
  function EdgeCount(s: Stmt): nat
    decreases s, 1
  {
    match s
    case If(_, _, body, orelse) => 3 + BlockEdges(body) + BlockEdges(orelse)
    case For(_, _, _, body) => 2 + BlockEdges(body)
    case While(_, _, body) => 2 + BlockEdges(body)
    case _ => 1
  }

  function BlockEdges(ss: seq<Stmt>): nat
    decreases ss, 0
  {
    if ss == [] then 0 else BlockEdges(ss[..|ss| - 1]) + EdgeCount(ss[|ss| - 1])
  }

  /** `g2` extends `g1`: the old nodes and edges are kept, in place, and new ones follow. */
  predicate Extends(g1: Graph, g2: Graph)
  {
    |g1.nodes| <= |g2.nodes| && g2.nodes[..|g1.nodes|] == g1.nodes &&
    |g1.edges| <= |g2.edges| && g2.edges[..|g1.edges|] == g1.edges
  }

  /**
    `g1` is `g` after `n` nodes and `e` edges were added in order, keeping the numbering
    sequential; `r` is a node of `g1`; and hanging from an existing `cur` adds only edges
    between existing nodes.
  */
  predicate Grew(g: Graph, g1: Graph, r: string, cur: string, n: nat, e: nat)
  {
    && Sequential(g1) && Extends(g, g1)
    && |g1.nodes| == |g.nodes| + n
    && |g1.edges| == |g.edges| + e
    && HasNode(g1, r)
    && (Closed(g) && HasNode(g, cur) ==> Closed(g1))
  }

  // ---------------------------------------------------------------- lemmas

  /** `r` is the id of one of the nodes numbered `lo` to `hi - 1`. */
  predicate NamedIn(r: string, lo: nat, hi: nat)
  {
    exists k :: lo <= k < hi && r == NodeName(k)
  }

  lemma NamedInWiden(r: string, lo: nat, hi: nat, lo': nat, hi': nat)
    requires NamedIn(r, lo, hi) && lo' <= lo && hi <= hi'
    ensures NamedIn(r, lo', hi')
  {
    var k :| lo <= k < hi && r == NodeName(k);
    assert lo' <= k < hi';
  }

  /** Distinct counters give distinct ids. */
  lemma NodeNameInjective(i: nat, j: nat)
    requires NodeName(i) == NodeName(j)
    ensures i == j
  {
    assert NodeName(i)[4..] == NatToString(i);
    assert NodeName(j)[4..] == NatToString(j);
    NatToStringInjective(i, j);
  }

  /** Ids are pairwise distinct, so no `nodes[id] = ...` of the source overwrites an earlier node. */
  lemma IdsDistinct(g: Graph, i: nat, j: nat)
    requires Sequential(g) && i < j < |g.nodes|
    ensures g.nodes[i].id != g.nodes[j].id
  {
    if g.nodes[i].id == g.nodes[j].id {
      NodeNameInjective(i, j);
    }
  }

  lemma ExtendsTrans(g1: Graph, g2: Graph, g3: Graph)
    requires Extends(g1, g2) && Extends(g2, g3)
    ensures Extends(g1, g3)
  {
    assert g3.nodes[..|g1.nodes|] == g3.nodes[..|g2.nodes|][..|g1.nodes|];
    assert g3.edges[..|g1.edges|] == g3.edges[..|g2.edges|][..|g1.edges|];
  }

  lemma ExtendsAt(g1: Graph, g2: Graph, i: nat, j: nat)
    requires Extends(g1, g2) && i < |g1.nodes| && j < |g1.edges|
    ensures g2.nodes[i] == g1.nodes[i] && g2.edges[j] == g1.edges[j]
  {
    assert g2.nodes[..|g1.nodes|][i] == g2.nodes[i];
    assert g2.edges[..|g1.edges|][j] == g2.edges[j];
  }

  lemma ExtendsHasNode(g1: Graph, g2: Graph, id: string)
    requires Extends(g1, g2) && HasNode(g1, id)
    ensures HasNode(g2, id)
  {
    var k :| 0 <= k < |g1.nodes| && g1.nodes[k].id == id;
    assert g2.nodes[..|g1.nodes|][k] == g2.nodes[k];
  }

  /** Under a sequential numbering, the `k`-th node exists exactly for `k` below the counter. */
  lemma HasNodeName(g: Graph, k: nat)
    requires Sequential(g) && k < |g.nodes|
    ensures HasNode(g, NodeName(k))
  {
  }

  /**
    `create_node` keeps the numbering sequential, appends one node with the given label,
    type and line, and returns its id, `node<n>` for the `n` nodes already there.
  */
  lemma NewNodeFacts(g: Graph, labelText: string, nodeType: string, line: Option<int>)
    requires Sequential(g)
    ensures var (g1, id) := NewNode(g, labelText, nodeType, line);
      && Sequential(g1) && Extends(g, g1) && HasNode(g1, id)
      && id == NodeName(|g.nodes|)
      && g1.nodes == g.nodes + [Node(id, labelText, nodeType, line)] && g1.edges == g.edges
      && (Closed(g) ==> Closed(g1))
  {
    var (g1, id) := NewNode(g, labelText, nodeType, line);
    assert g1.nodes[..|g.nodes|] == g.nodes;
    assert g1.nodes[|g.nodes|].id == id;
    if Closed(g) {
      forall e | e in g1.edges ensures HasNode(g1, e.from) && HasNode(g1, e.to) {
        ExtendsHasNode(g, g1, e.from);
        ExtendsHasNode(g, g1, e.to);
      }
    }
  }

  /** `add_edge` between two existing nodes keeps every edge between existing nodes. */
  lemma NewEdgeFacts(g: Graph, from: string, to: string, labelText: string)
    ensures var g1 := NewEdge(g, from, to, labelText);
      && Extends(g, g1) && g1.nodes == g.nodes && |g1.edges| == |g.edges| + 1
      && (Sequential(g) ==> Sequential(g1))
      && (Closed(g) && HasNode(g, from) && HasNode(g, to) ==> Closed(g1))
  {
    var g1 := NewEdge(g, from, to, labelText);
    assert g1.edges[..|g.edges|] == g.edges;
  }

  /**
    Processing a statement keeps the numbering sequential, only appends, adds exactly
    `NodeCount(s)` nodes and `EdgeCount(s)` edges, and, when it hangs from an existing
    node, adds only edges between existing nodes. The node returned is the loop node,
    the first one added, for a loop, and the last one added otherwise.
  */
  lemma {:induction false} ProcessFacts(g: Graph, s: Stmt, cur: string)
    requires Sequential(g)
    ensures Grew(g, Process(g, s, cur).0, Process(g, s, cur).1, cur, NodeCount(s), EdgeCount(s))
    ensures Process(g, s, cur).1 == NodeName(if s.For? || s.While? then |g.nodes| else |g.nodes| + NodeCount(s) - 1)
    decreases NodeCount(s), 2
  {
    match s
    case If(line, test, body, orelse) =>
      IfFacts(g, line, test, body, orelse, cur);
    case For(line, target, iter, body) =>
      var name := if target.NameTarget? then target.id else "item";
      LoopFacts(g, "For " + name + " in " + iter, line, body, cur);
    case While(line, test, body) =>
      LoopFacts(g, "While " + test + "?", line, body, cur);
    case Assign(line, targets) =>
      SimpleFacts(g, "Assign: " + Join(", ", TargetNames(targets)), Some(line), cur);
    case FunctionDef(line, name) =>
      SimpleFacts(g, "Function: " + name, Some(line), cur);
    case Return(line) =>
      SimpleFacts(g, "Return", Some(line), cur);
    case CallStmt(line, func) =>
      SimpleFacts(g, "Call: " + CalleeName(func) + "()", Some(line), cur);
    case OtherStmt(typeName, line) =>
      SimpleFacts(g, "Statement: " + typeName, Some(line), cur);
  }

  /** The branches of an `if`: both hang from the decision node, and each ends at an existing node. */
  lemma {:induction false} BranchFacts(g: Graph, body: seq<Stmt>, orelse: seq<Stmt>, decision: string)
    requires Sequential(g) && HasNode(g, decision)
    ensures var (g2, ifEnd) := ProcessAll(g, body, decision);
      var (g3, elseEnd) := if orelse != [] then ProcessAll(g2, orelse, decision) else (g2, decision);
      && Sequential(g3) && Extends(g, g3)
      && |g3.nodes| == |g.nodes| + BlockNodes(body) + BlockNodes(orelse)
      && |g3.edges| == |g.edges| + BlockEdges(body) + BlockEdges(orelse)
      && HasNode(g3, ifEnd) && HasNode(g3, elseEnd)
      && (body == [] ==> ifEnd == decision) && (body != [] ==> NamedIn(ifEnd, |g.nodes|, |g3.nodes|))
      && (orelse == [] ==> elseEnd == decision) && (orelse != [] ==> NamedIn(elseEnd, |g.nodes|, |g3.nodes|))
      && (Closed(g) ==> Closed(g3))
    decreases BlockNodes(body) + BlockNodes(orelse), 4
  {
    var (g2, ifEnd) := ProcessAll(g, body, decision);
    ProcessAllFacts(g, body, decision);
    if body == [] {
      ExtendsHasNode(g, g2, decision);
    }
    ExtendsHasNode(g, g2, decision);
    if orelse != [] {
      var (g3, elseEnd) := ProcessAll(g2, orelse, decision);
      ProcessAllFacts(g2, orelse, decision);
      ExtendsHasNode(g2, g3, ifEnd);
      ExtendsTrans(g, g2, g3);
      if body != [] {
        NamedInWiden(ifEnd, |g.nodes|, |g2.nodes|, |g.nodes|, |g3.nodes|);
      }
      NamedInWiden(elseEnd, |g2.nodes|, |g3.nodes|, |g.nodes|, |g3.nodes|);
    } else {
      assert BlockNodes(orelse) == 0 && BlockEdges(orelse) == 0;
    }
  }

  /** The `if` case of `ProcessFacts`: the merge node, added last, is returned. */
  lemma {:induction false} IfFacts(g: Graph, line: int, test: string, body: seq<Stmt>, orelse: seq<Stmt>, cur: string)
    requires Sequential(g)
    ensures var s := If(line, test, body, orelse);
      && Grew(g, Process(g, s, cur).0, Process(g, s, cur).1, cur, NodeCount(s), EdgeCount(s))
      && Process(g, s, cur).1 == NodeName(|g.nodes| + NodeCount(s) - 1)
    decreases NodeCount(If(line, test, body, orelse)), 1
  {
    var (g1, decision) := NewNode(g, "If " + test + "?", "decision", Some(line));
    var e1 := NewEdge(g1, cur, decision, "");
    assert Grew(g, e1, decision, cur, 1, 1) && decision == NodeName(|g.nodes|) by {
      HangFacts(g, "If " + test + "?", "decision", Some(line), cur);
    }
    var (g2, ifEnd) := ProcessAll(e1, body, decision);
    var (g3, elseEnd) := if orelse != [] then ProcessAll(g2, orelse, decision) else (g2, decision);
    var n, m := BlockNodes(body) + BlockNodes(orelse), BlockEdges(body) + BlockEdges(orelse);
    assert Grew(e1, g3, ifEnd, decision, n, m) && HasNode(g3, elseEnd) by {
      BranchFacts(e1, body, orelse, decision);
    }
    GrewTrans(g, e1, g3, decision, ifEnd, cur, decision, 1, 1, n, m);
    var (g4, merge) := NewNode(g3, "Merge", "process", None);
    var e3 := NewEdge(NewEdge(g4, ifEnd, merge, "Yes"), elseEnd, merge, if orelse != [] then "No" else "");
    assert Grew(g3, e3, merge, ifEnd, 1, 2) && merge == NodeName(|g3.nodes|) by {
      MergeFacts(g3, ifEnd, elseEnd, if orelse != [] then "No" else "");
    }
    GrewTrans(g, g3, e3, ifEnd, merge, cur, ifEnd, 1 + n, 1 + m, 1, 2);
    assert Process(g, If(line, test, body, orelse), cur) == (e3, merge);
  }

  /**
    The shape of an `if`: its first node is the decision node, reached from `cur` by an
    unlabelled edge; its last node is the `Merge` node, which is returned.
  */
  lemma {:induction false} IfShape(g: Graph, line: int, test: string, body: seq<Stmt>, orelse: seq<Stmt>, cur: string)
    requires Sequential(g)
    ensures var (g1, r) := Process(g, If(line, test, body, orelse), cur);
      var d := NodeName(|g.nodes|);
      && |g1.nodes| == |g.nodes| + 2 + BlockNodes(body) + BlockNodes(orelse)
      && |g1.edges| == |g.edges| + 3 + BlockEdges(body) + BlockEdges(orelse)
      && g1.nodes[|g.nodes|] == Node(d, "If " + test + "?", "decision", Some(line))
      && g1.edges[|g.edges|] == Edge(cur, d, "")
      && r == NodeName(|g1.nodes| - 1)
      && g1.nodes[|g1.nodes| - 1] == Node(r, "Merge", "process", None)
  {
    var (g1, decision) := NewNode(g, "If " + test + "?", "decision", Some(line));
    var e1 := NewEdge(g1, cur, decision, "");
    var (g2, ifEnd) := ProcessAll(e1, body, decision);
    var (g3, elseEnd) := if orelse != [] then ProcessAll(g2, orelse, decision) else (g2, decision);
    var (g4, merge) := NewNode(g3, "Merge", "process", None);
    var e3 := NewEdge(NewEdge(g4, ifEnd, merge, "Yes"), elseEnd, merge, if orelse != [] then "No" else "");
    assert Process(g, If(line, test, body, orelse), cur) == (e3, merge);
    assert && Sequential(e1) && HasNode(e1, decision) && decision == NodeName(|g.nodes|)
      && |e1.nodes| == |g.nodes| + 1 && |e1.edges| == |g.edges| + 1
      && e1.nodes[|g.nodes|] == Node(decision, "If " + test + "?", "decision", Some(line))
      && e1.edges[|g.edges|] == Edge(cur, decision, "")
    by {
      NewNodeFacts(g, "If " + test + "?", "decision", Some(line));
      ExtendsHasNode(g1, e1, decision);
    }
    assert && Sequential(g3) && Extends(e1, g3)
      && |g3.nodes| == |e1.nodes| + BlockNodes(body) + BlockNodes(orelse)
      && |g3.edges| == |e1.edges| + BlockEdges(body) + BlockEdges(orelse)
    by {
      BranchFacts(e1, body, orelse, decision);
    }
    assert && merge == NodeName(|g3.nodes|)
      && |e3.nodes| == |g3.nodes| + 1 && e3.nodes[..|g3.nodes|] == g3.nodes
      && e3.nodes[|g3.nodes|] == Node(merge, "Merge", "process", None)
      && |e3.edges| == |g3.edges| + 2 && e3.edges[..|g3.edges|] == g3.edges
    by {
      MergeShape(g3, ifEnd, elseEnd, if orelse != [] then "No" else "");
    }
    assert e3.nodes[|g.nodes|] == e1.nodes[|g.nodes|] && e3.edges[|g.edges|] == e1.edges[|g.edges|] by {
      ExtendsTrans(e1, g3, e3);
      ExtendsAt(e1, e3, |g.nodes|, |g.edges|);
    }
  }

  /**
    The joins of an `if`: its last two edges lead to the returned merge node, labelled
    `Yes` from the end of the `if` branch and `No` from the end of the `else` branch, or
    unlabelled from the decision node when there is no `else`. An empty `if` branch is
    joined from the decision node, a non-empty branch from a node it added.
  */
  lemma {:induction false} IfJoins(g: Graph, line: int, test: string, body: seq<Stmt>, orelse: seq<Stmt>, cur: string)
    requires Sequential(g)
    ensures var (g1, r) := Process(g, If(line, test, body, orelse), cur);
      var d := NodeName(|g.nodes|);
      && |g1.nodes| == |g.nodes| + 2 + BlockNodes(body) + BlockNodes(orelse)
      && |g1.edges| == |g.edges| + 3 + BlockEdges(body) + BlockEdges(orelse)
      && g1.edges[|g1.edges| - 2].to == r && g1.edges[|g1.edges| - 2].labelText == "Yes"
      && (body == [] ==> g1.edges[|g1.edges| - 2].from == d)
      && (body != [] ==> NamedIn(g1.edges[|g1.edges| - 2].from, |g.nodes| + 1, |g1.nodes| - 1))
      && g1.edges[|g1.edges| - 1].to == r
      && g1.edges[|g1.edges| - 1].labelText == (if orelse != [] then "No" else "")
      && (orelse == [] ==> g1.edges[|g1.edges| - 1].from == d)
      && (orelse != [] ==> NamedIn(g1.edges[|g1.edges| - 1].from, |g.nodes| + 1, |g1.nodes| - 1))
  {
    var (g1, decision) := NewNode(g, "If " + test + "?", "decision", Some(line));
    var e1 := NewEdge(g1, cur, decision, "");
    var (g2, ifEnd) := ProcessAll(e1, body, decision);
    var (g3, elseEnd) := if orelse != [] then ProcessAll(g2, orelse, decision) else (g2, decision);
    var (g4, merge) := NewNode(g3, "Merge", "process", None);
    var e3 := NewEdge(NewEdge(g4, ifEnd, merge, "Yes"), elseEnd, merge, if orelse != [] then "No" else "");
    assert Process(g, If(line, test, body, orelse), cur) == (e3, merge);
    assert && Sequential(e1) && HasNode(e1, decision) && decision == NodeName(|g.nodes|)
      && |e1.nodes| == |g.nodes| + 1 && |e1.edges| == |g.edges| + 1
    by {
      NewNodeFacts(g, "If " + test + "?", "decision", Some(line));
      ExtendsHasNode(g1, e1, decision);
    }
    assert && Sequential(g3)
      && |g3.nodes| == |e1.nodes| + BlockNodes(body) + BlockNodes(orelse)
      && |g3.edges| == |e1.edges| + BlockEdges(body) + BlockEdges(orelse)
      && (body == [] ==> ifEnd == decision) && (body != [] ==> NamedIn(ifEnd, |e1.nodes|, |g3.nodes|))
      && (orelse == [] ==> elseEnd == decision) && (orelse != [] ==> NamedIn(elseEnd, |e1.nodes|, |g3.nodes|))
    by {
      BranchFacts(e1, body, orelse, decision);
    }
    assert && |e3.nodes| == |g3.nodes| + 1 && |e3.edges| == |g3.edges| + 2
      && e3.edges[|g3.edges|] == Edge(ifEnd, merge, "Yes")
      && e3.edges[|g3.edges| + 1] == Edge(elseEnd, merge, if orelse != [] then "No" else "")
    by {
      MergeShape(g3, ifEnd, elseEnd, if orelse != [] then "No" else "");
    }
    if body != [] {
      NamedInWiden(ifEnd, |e1.nodes|, |g3.nodes|, |g.nodes| + 1, |e3.nodes| - 1);
    }
    if orelse != [] {
      NamedInWiden(elseEnd, |e1.nodes|, |g3.nodes|, |g.nodes| + 1, |e3.nodes| - 1);
    }
  }

  /** The `Merge` node of an `if`, joined from the ends of both branches. */
  lemma MergeFacts(g: Graph, ifEnd: string, elseEnd: string, labelText: string)
    requires Sequential(g) && HasNode(g, ifEnd) && HasNode(g, elseEnd)
    ensures var (g1, merge) := NewNode(g, "Merge", "process", None);
      && Grew(g, NewEdge(NewEdge(g1, ifEnd, merge, "Yes"), elseEnd, merge, labelText), merge, ifEnd, 1, 2)
      && merge == NodeName(|g.nodes|)
  {
    var (g1, merge) := NewNode(g, "Merge", "process", None);
    NewNodeFacts(g, "Merge", "process", None);
    ExtendsHasNode(g, g1, ifEnd);
    ExtendsHasNode(g, g1, elseEnd);
    var e1 := NewEdge(g1, ifEnd, merge, "Yes");
    NewEdgeFacts(g1, ifEnd, merge, "Yes");
    ExtendsHasNode(g1, e1, merge);
    ExtendsHasNode(g1, e1, elseEnd);
    var e2 := NewEdge(e1, elseEnd, merge, labelText);
    NewEdgeFacts(e1, elseEnd, merge, labelText);
    ExtendsHasNode(e1, e2, merge);
    ExtendsTrans(g, g1, e1);
    ExtendsTrans(g, e1, e2);
  }

  /** The `Merge` node is appended, then its two incoming edges, in order. */
  lemma MergeShape(g: Graph, ifEnd: string, elseEnd: string, labelText: string)
    requires Sequential(g)
    ensures var (g1, merge) := NewNode(g, "Merge", "process", None);
      var e := NewEdge(NewEdge(g1, ifEnd, merge, "Yes"), elseEnd, merge, labelText);
      && merge == NodeName(|g.nodes|)
      && |e.nodes| == |g.nodes| + 1 && e.nodes[..|g.nodes|] == g.nodes
      && e.nodes[|g.nodes|] == Node(merge, "Merge", "process", None)
      && |e.edges| == |g.edges| + 2 && e.edges[..|g.edges|] == g.edges
      && e.edges[|g.edges|] == Edge(ifEnd, merge, "Yes")
      && e.edges[|g.edges| + 1] == Edge(elseEnd, merge, labelText)
  {
  }

  /** A node hung from `cur` by an unlabelled edge. */
  lemma HangFacts(g: Graph, labelText: string, nodeType: string, line: Option<int>, cur: string)
    requires Sequential(g)
    ensures var (g1, n) := NewNode(g, labelText, nodeType, line);
      && Grew(g, NewEdge(g1, cur, n, ""), n, cur, 1, 1)
      && n == NodeName(|g.nodes|)
  {
    var (g1, n) := NewNode(g, labelText, nodeType, line);
    NewNodeFacts(g, labelText, nodeType, line);
    if HasNode(g, cur) {
      ExtendsHasNode(g, g1, cur);
    }
    NewEdgeFacts(g1, cur, n, "");
    ExtendsHasNode(g1, NewEdge(g1, cur, n, ""), n);
    ExtendsTrans(g, g1, NewEdge(g1, cur, n, ""));
  }

  lemma GrewTrans(g: Graph, g1: Graph, g2: Graph, r1: string, r2: string, cur: string, cur2: string,
      n1: nat, m1: nat, n2: nat, m2: nat)
    requires Grew(g, g1, r1, cur, n1, m1) && Grew(g1, g2, r2, cur2, n2, m2) && HasNode(g1, cur2)
    ensures Grew(g, g2, r2, cur, n1 + n2, m1 + m2)
  {
    ExtendsTrans(g, g1, g2);
  }

  /**
    The loop case of `ProcessFacts`, shared by `for` and `while`: the loop node comes
    first, reached from `cur` by an unlabelled edge, and is returned; the last edge is
    the `Continue` edge from the end of the body back to it.
  */
  lemma {:induction false} LoopFacts(g: Graph, labelText: string, line: int, body: seq<Stmt>, cur: string)
    requires Sequential(g)
    ensures var (g1, loop) := NewNode(g, labelText, "decision", Some(line));
      var (g2, bodyEnd) := ProcessAll(NewEdge(g1, cur, loop, ""), body, loop);
      var g3 := NewEdge(g2, bodyEnd, loop, "Continue");
      && Grew(g, g3, loop, cur, 1 + BlockNodes(body), 2 + BlockEdges(body))
      && loop == NodeName(|g.nodes|)
      && g3.nodes[|g.nodes|] == Node(loop, labelText, "decision", Some(line))
      && g3.edges[|g.edges|] == Edge(cur, loop, "")
      && g3.edges[|g3.edges| - 1] == Edge(bodyEnd, loop, "Continue")
    decreases BlockNodes(body), 4
  {
    var (g1, loop) := NewNode(g, labelText, "decision", Some(line));
    NewNodeFacts(g, labelText, "decision", Some(line));
    if HasNode(g, cur) {
      ExtendsHasNode(g, g1, cur);
    }
    var e1 := NewEdge(g1, cur, loop, "");
    NewEdgeFacts(g1, cur, loop, "");
    var (g2, bodyEnd) := ProcessAll(e1, body, loop);
    ProcessAllFacts(e1, body, loop);
    ExtendsHasNode(e1, g2, loop);
    NewEdgeFacts(g2, bodyEnd, loop, "Continue");
    ExtendsTrans(g, g1, e1);
    ExtendsTrans(g, e1, g2);
    ExtendsTrans(g, g2, NewEdge(g2, bodyEnd, loop, "Continue"));
    assert g2.nodes[..|e1.nodes|][|g.nodes|] == g2.nodes[|g.nodes|];
    assert g2.edges[..|e1.edges|][|g.edges|] == g2.edges[|g.edges|];
  }

  /** Any other statement: one `process` node, returned, reached from `cur` by one unlabelled edge. */
  lemma SimpleFacts(g: Graph, labelText: string, line: Option<int>, cur: string)
    requires Sequential(g)
    ensures var (g1, r) := Simple(g, labelText, line, cur);
      && Grew(g, g1, r, cur, 1, 1)
      && r == NodeName(|g.nodes|)
      && g1.nodes == g.nodes + [Node(r, labelText, "process", line)]
      && g1.edges == g.edges + [Edge(cur, r, "")]
  {
    HangFacts(g, labelText, "process", line, cur);
  }

  /** `ProcessFacts` for a body: the result is `cur` for an empty body, else one of the nodes the body added. */
  lemma {:induction false} ProcessAllFacts(g: Graph, ss: seq<Stmt>, cur: string)
    requires Sequential(g)
    ensures var (g1, r) := ProcessAll(g, ss, cur);
      && Sequential(g1) && Extends(g, g1)
      && |g1.nodes| == |g.nodes| + BlockNodes(ss)
      && |g1.edges| == |g.edges| + BlockEdges(ss)
      && (ss == [] ==> r == cur)
      && (ss != [] ==> HasNode(g1, r) && NamedIn(r, |g.nodes|, |g1.nodes|))
      && (Closed(g) && HasNode(g, cur) ==> Closed(g1))
    decreases BlockNodes(ss), 3
  {
    if ss != [] {
      var (g1, c1) := ProcessAll(g, ss[..|ss| - 1], cur);
      assert NodeCount(ss[|ss| - 1]) > 0;
      ProcessAllFacts(g, ss[..|ss| - 1], cur);
      if Closed(g) && HasNode(g, cur) && ss[..|ss| - 1] == [] {
        assert HasNode(g1, c1);
      }
      ProcessFacts(g1, ss[|ss| - 1], c1);
      ExtendsTrans(g, g1, Process(g1, ss[|ss| - 1], c1).0);
      var s := ss[|ss| - 1];
      var k := if s.For? || s.While? then |g1.nodes| else |g1.nodes| + NodeCount(s) - 1;
      assert |g.nodes| <= k < |g.nodes| + BlockNodes(ss);
    }
  }

  /**
    What `generate_from_code` builds from a parsed module: ids `node0`, `node1`, ... in
    order; `node0` is START; the last node is END, reached by the last edge; every
    edge joins two nodes; and the node and edge counts are fixed by the statements.
  */
  lemma GeneratedShape(body: seq<Stmt>)
    ensures var g := Generated(body);
      && Sequential(g) && Closed(g)
      && |g.nodes| == 2 + BlockNodes(body)
      && |g.edges| == 1 + BlockEdges(body)
      && g.nodes[0] == Node("node0", "START", "start", None)
      && g.nodes[|g.nodes| - 1] == Node(NodeName(|g.nodes| - 1), "END", "end", None)
      && g.edges[|g.edges| - 1] == Edge(ProcessAll(NewNode(Empty, "START", "start", None).0, body, "node0").1,
        NodeName(|g.nodes| - 1), "")
  {
    var (g1, start) := NewNode(Empty, "START", "start", None);
    assert start == "node0" by {
      assert NatToString(0) == "0";
    }
    assert g1 == Graph(1, [Node("node0", "START", "start", None)], []);
    assert Sequential(g1) && Closed(g1) && HasNode(g1, start) by {
      NewNodeFacts(Empty, "START", "start", None);
    }
    var (g2, cur) := ProcessAll(g1, body, start);
    assert && Sequential(g2) && Closed(g2) && HasNode(g2, cur)
      && |g2.nodes| == 1 + BlockNodes(body) && |g2.edges| == BlockEdges(body)
      && g2.nodes[0] == g1.nodes[0]
    by {
      ProcessAllFacts(g1, body, start);
      if body == [] {
        ExtendsHasNode(g1, g2, start);
      }
      assert g2.nodes[..|g1.nodes|][0] == g2.nodes[0];
    }
    var (g3, end) := NewNode(g2, "END", "end", None);
    assert && Sequential(g3) && Closed(g3) && HasNode(g3, cur) && HasNode(g3, end)
      && g3.nodes == g2.nodes + [Node(end, "END", "end", None)] && end == NodeName(|g2.nodes|)
      && g3.edges == g2.edges
    by {
      NewNodeFacts(g2, "END", "end", None);
      ExtendsHasNode(g2, g3, cur);
    }
    var g := NewEdge(g3, cur, end, "");
    assert Sequential(g) && Closed(g) by {
      NewEdgeFacts(g3, cur, end, "");
    }
    assert g == Generated(body);
  }

  /** The Mermaid text has one header line, then one line per node in order, then one per edge in order. */
  lemma MermaidLineCount(g: Graph)
    ensures var lines := MermaidLines(g);
      && |lines| == 1 + |g.nodes| + |g.edges|
      && lines[0] == "flowchart TD"
      && (forall i :: 0 <= i < |g.nodes| ==> lines[1 + i] == NodeLine(g.nodes[i]))
      && (forall i :: 0 <= i < |g.edges| ==> lines[1 + |g.nodes| + i] == EdgeLine(g.edges[i]))
  {
  }

  /** A list with the header, the node lines and the edge lines in place is the `lines` list. */
  lemma MermaidLinesExactly(g: Graph, lines: seq<string>)
    requires |lines| == 1 + |g.nodes| + |g.edges| && lines[0] == "flowchart TD"
    requires forall k :: 0 <= k < |g.nodes| ==> lines[1 + k] == NodeLine(g.nodes[k])
    requires forall k :: 0 <= k < |g.edges| ==> lines[1 + |g.nodes| + k] == EdgeLine(g.edges[k])
    ensures lines == MermaidLines(g)
  {
    var m := MermaidLines(g);
    MermaidLineCount(g);
    forall k | 0 <= k < |lines|
      ensures lines[k] == m[k]
    {
      if 1 <= k < 1 + |g.nodes| {
        assert lines[1 + (k - 1)] == m[1 + (k - 1)];
      } else if 1 + |g.nodes| <= k {
        assert lines[1 + |g.nodes| + (k - 1 - |g.nodes|)] == m[1 + |g.nodes| + (k - 1 - |g.nodes|)];
      }
    }
  }

  /** No text of the graph holds a newline. */
  predicate NoNewlines(g: Graph)
  {
    (forall n :: n in g.nodes ==> '\n' !in n.id && '\n' !in n.labelText) &&
    (forall e :: e in g.edges ==> '\n' !in e.from && '\n' !in e.to && '\n' !in e.labelText)
  }

  /**
    When no id or labelText holds a newline, splitting the text on newlines gives back
    exactly its lines, so the text has `1 + |nodes| + |edges|` lines.
  */
  lemma MermaidSplits(g: Graph)
    requires NoNewlines(g)
    ensures SplitOn(Mermaid(g), "\n") == MermaidLines(g)
    ensures |SplitOn(Mermaid(g), "\n")| == 1 + |g.nodes| + |g.edges|
  {
    var lines := MermaidLines(g);
    forall i | 0 <= i < |lines| ensures '\n' !in lines[i] {
      if 1 <= i < 1 + |g.nodes| {
        assert g.nodes[i - 1] in g.nodes;
      } else if i >= 1 + |g.nodes| {
        assert g.edges[i - 1 - |g.nodes|] in g.edges;
      }
    }
    SplitOnJoin('\n', lines);
  }

  // ---------------------------------------------------------------- the class

  class FlowchartGenerator {
    var nodeId: nat
    var nodes: seq<Node>
    var edges: seq<Edge>

    function State(): Graph
      reads this
    {
      Graph(nodeId, nodes, edges)
    }

    /** The counter and the node ids agree, as every method leaves them. */
    predicate Valid()
      reads this
    {
      Sequential(State())
    }

    constructor ()
      ensures State() == Empty && Valid()
    {
      nodeId := 0;
      nodes := [];
      edges := [];
    }

    /** `reset`. */
    method Reset()
      modifies this
      ensures State() == Empty && Valid()
    {
      nodeId := 0;
      nodes := [];
      edges := [];
    }

    /** `create_node`. */
    method CreateNode(labelText: string, nodeType: string, line: Option<int>) returns (id: string)
      requires Valid()
      modifies this
      ensures Valid()
      ensures (State(), id) == NewNode(old(State()), labelText, nodeType, line)
    {
      id := "node" + NatToString(nodeId);
      nodeId := nodeId + 1;
      nodes := nodes + [Node(id, labelText, nodeType, line)];
    }

    /** `add_edge`. */
    method AddEdge(from: string, to: string, labelText: string)
      modifies this
      ensures State() == NewEdge(old(State()), from, to, labelText)
    {
      edges := edges + [Edge(from, to, labelText)];
    }

    /** `process_statement`. */
    method ProcessStatement(s: Stmt, cur: string) returns (r: string)
      requires Valid()
      modifies this
      ensures Valid()
      ensures (State(), r) == Process(old(State()), s, cur)
      decreases s, 1
    {
      ghost var g := State();
      match s {
        case Assign(line, targets) =>
          var names := CollectTargetNames(targets);
          r := CreateNode("Assign: " + Join(", ", names), "process", Some(line));
          AddEdge(cur, r, "");
        case If(_, _, _, _) =>
          r := ProcessIf(s, cur);
        case For(line, target, iter, _) =>
          var name := if target.NameTarget? then target.id else "item";
          r := ProcessLoop(s, "For " + name + " in " + iter, cur);
        case While(line, test, _) =>
          r := ProcessLoop(s, "While " + test + "?", cur);
        case FunctionDef(line, name) =>
          r := CreateNode("Function: " + name, "process", Some(line));
          AddEdge(cur, r, "");
        case Return(line) =>
          r := CreateNode("Return", "process", Some(line));
          AddEdge(cur, r, "");
        case CallStmt(line, func) =>
          var funcName := "function";
          if func.NameCallee? {
            funcName := func.id;
          }
          r := CreateNode("Call: " + funcName + "()", "process", Some(line));
          AddEdge(cur, r, "");
        case OtherStmt(typeName, line) =>
          r := CreateNode("Statement: " + typeName, "process", Some(line));
          AddEdge(cur, r, "");
      }
    }

    /** The `if` branch of `process_statement`. */
    method ProcessIf(s: Stmt, cur: string) returns (r: string)
      requires Valid() && s.If?
      modifies this
      ensures Valid()
      ensures (State(), r) == Process(old(State()), s, cur)
      decreases s, 0
    {
      var decision := CreateNode("If " + s.test + "?", "decision", Some(s.line));
      AddEdge(cur, decision, "");
      var ifEnd := ProcessBody(s.body, decision);
      var elseEnd := decision;
      if s.orelse != [] {
        elseEnd := ProcessBody(s.orelse, decision);
      }
      r := CreateNode("Merge", "process", None);
      AddEdge(ifEnd, r, "Yes");
      AddEdge(elseEnd, r, if s.orelse != [] then "No" else "");
    }

    /** The `for` and `while` branches of `process_statement`, which differ only in the label. */
    method ProcessLoop(s: Stmt, labelText: string, cur: string) returns (r: string)
      requires Valid() && (s.For? || s.While?)
      requires labelText == if s.For? then "For " + (if s.target.NameTarget? then s.target.id else "item") + " in " + s.iter
        else "While " + s.test + "?"
      modifies this
      ensures Valid()
      ensures (State(), r) == Process(old(State()), s, cur)
      decreases s, 0
    {
      r := CreateNode(labelText, "decision", Some(s.line));
      AddEdge(cur, r, "");
      var bodyEnd := ProcessBody(s.body, r);
      AddEdge(bodyEnd, r, "Continue");
    }

    /** The `for ... in stmt.body` loops of `process_statement`: each statement hangs from the previous one's result. */
    method ProcessBody(ss: seq<Stmt>, cur: string) returns (r: string)
      requires Valid()
      modifies this
      ensures Valid()
      ensures (State(), r) == ProcessAll(old(State()), ss, cur)
      decreases ss, 0
    {
      ghost var g := State();
      r := cur;
      for i := 0 to |ss|
        invariant Valid()
        invariant (State(), r) == ProcessAll(g, ss[..i], cur)
      {
        assert ss[..i + 1][..i] == ss[..i];
        r := ProcessStatement(ss[i], r);
      }
      assert ss[..|ss|] == ss;
    }

    /** The target-name list comprehension of the assignment case. */
    method CollectTargetNames(targets: seq<Target>) returns (names: seq<string>)
      ensures names == TargetNames(targets)
    {
      names := [];
      for i := 0 to |targets|
        invariant names == TargetNames(targets[..i])
      {
        assert targets[..i + 1][..i] == targets[..i];
        if targets[i].NameTarget? {
          names := names + [targets[i].id];
        }
      }
      assert targets[..|targets|] == targets;
    }

    /**
      `generate_from_code`. The program arrives parsed, as its module body, or as the
      message of the exception `ast.parse` raised, in which case nothing is reset.
    */
    method GenerateFromCode(parsed: Result<seq<Stmt>, string>) returns (r: Result<(string, seq<Node>), string>)
      modifies this
      ensures parsed.Failure? ==>
        State() == old(State()) && r == Failure("Failed to generate flowchart: " + parsed.error)
      ensures parsed.Success? ==>
        && Valid()
        && State() == Generated(parsed.value)
        && r == Success((Mermaid(State()), nodes))
    {
      if parsed.Failure? {
        return Failure("Failed to generate flowchart: " + parsed.error);
      }
      Reset();
      var start := CreateNode("START", "start", None);
      var cur := ProcessBody(parsed.value, start);
      var end := CreateNode("END", "end", None);
      AddEdge(cur, end, "");
      var text := GenerateMermaid();
      r := Success((text, nodes));
    }

    /** `generate_mermaid`. */
    method GenerateMermaid() returns (text: string)
      ensures text == Mermaid(State())
    {
      var ns, es := nodes, edges;
      var lines := ["flowchart TD"];
      for i := 0 to |ns|
        invariant |lines| == 1 + i && lines[0] == "flowchart TD"
        invariant forall k :: 0 <= k < i ==> lines[1 + k] == NodeLine(ns[k])
      {
        var n := ns[i];
        var line;
        if n.nodeType == "start" {
          line := "    " + n.id + "([" + n.labelText + "])";
        } else if n.nodeType == "end" {
          line := "    " + n.id + "([" + n.labelText + "])";
        } else if n.nodeType == "decision" {
          line := "    " + n.id + "{" + n.labelText + "}";
        } else {
          line := "    " + n.id + "[" + n.labelText + "]";
        }
        assert line == NodeLine(n);
        lines := lines + [line];
      }
      ghost var head := lines;
      for i := 0 to |es|
        invariant |lines| == 1 + |ns| + i && lines[..1 + |ns|] == head
        invariant forall k :: 0 <= k < i ==> lines[1 + |ns| + k] == EdgeLine(es[k])
      {
        var e := es[i];
        var line;
        if e.labelText != [] {
          line := "    " + e.from + " -->|" + e.labelText + "| " + e.to;
        } else {
          line := "    " + e.from + " --> " + e.to;
        }
        assert line == EdgeLine(e);
        assert (lines + [line])[..1 + |ns|] == lines[..1 + |ns|];
        lines := lines + [line];
      }
      assert forall k :: 1 <= k < 1 + |ns| ==> lines[k] == head[k];
      MermaidLinesExactly(State(), lines);
      text := Join("\n", lines);
    }
  }
}
