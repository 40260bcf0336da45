/**
 * `generate_mermaid_chart` (src/tools/mcp_tools.py): the call graph of a dependency analysis
 * rendered as Mermaid source in one of three dialects.  The edge list is cut to `max_nodes`
 * entries first; every identifier written outside a label is cleaned to `[A-Za-z0-9_]`.
 */
module Mermaid {
  import opened Text
  import opened Helpers
  import opened Dependencies

  const ErrorChart: string := "错误: 无效的依赖数据"

  /** The edges the diagram draws: `call_graph[:max_nodes]`. */
  function Truncated(es: seq<Edge>, maxNodes: int): seq<Edge> {
    PyPrefix(es, maxNodes)
  }

  // ---------------------------------------------------------------------------
  // flowchart TD

  /** A line of the flowchart body: a node declaration or an edge statement. */
  datatype FlowItem = Declare(name: string) | Link(edge: Edge)

  /** `added_nodes` after the given edges. */
  function Added(es: seq<Edge>): set<string> {
    if |es| == 0 then {} else Added(es[..|es| - 1]) + {es[|es| - 1].caller, es[|es| - 1].callee}
  }

  /** What one edge contributes: declarations of its endpoints not seen yet, then the edge. */
  function EdgeItems(added: set<string>, e: Edge): seq<FlowItem> {
    DeclareNew(added, e.caller) + DeclareNew(added + {e.caller}, e.callee) + [Link(e)]
  }

  /** A declaration of `n` unless it was added before. */
  function DeclareNew(added: set<string>, n: string): seq<FlowItem> {
    if n in added then [] else [Declare(n)]
  }

  function FlowItems(es: seq<Edge>): seq<FlowItem> {
    if |es| == 0 then [] else FlowItems(es[..|es| - 1]) + EdgeItems(Added(es[..|es| - 1]), es[|es| - 1])
  }

  function RenderFlow(it: FlowItem): string {
    match it
    case Declare(n) => "    " + CleanFunctionName(n) + "[\"" + n + "\"]"
    case Link(e) => "    " + CleanFunctionName(e.caller) + " --> " + CleanFunctionName(e.callee)
  }

  function RenderAll(items: seq<FlowItem>): seq<string> {
    seq(|items|, i requires 0 <= i < |items| => RenderFlow(items[i]))
  }

  function FlowLines(es: seq<Edge>): seq<string> {
    ["flowchart TD"] + RenderAll(FlowItems(es))
  }

  lemma FlowStep(es: seq<Edge>, k: nat)
    requires k < |es|
    ensures FlowItems(es[..k + 1]) == FlowItems(es[..k]) + EdgeItems(Added(es[..k]), es[k])
    ensures Added(es[..k + 1]) == Added(es[..k]) + {es[k].caller, es[k].callee}
  {
    assert es[..k + 1][..k] == es[..k];
  }

  lemma RenderAllAppend(a: seq<FlowItem>, b: seq<FlowItem>)
    ensures RenderAll(a + b) == RenderAll(a) + RenderAll(b)
  {
  }

  /** The body of the flowchart loop for one edge. */
  method EmitEdge(lines: seq<string>, added: set<string>, e: Edge) returns (lines': seq<string>, added': set<string>)
    ensures lines' == lines + RenderAll(EdgeItems(added, e))
    ensures added' == added + {e.caller, e.callee}
  {
    lines' := lines;
    added' := added;
    if e.caller !in added' {
      lines' := lines' + [RenderFlow(Declare(e.caller))];
      added' := added' + {e.caller};
    }
    if e.callee !in added' {
      lines' := lines' + [RenderFlow(Declare(e.callee))];
      added' := added' + {e.callee};
    }
    lines' := lines' + [RenderFlow(Link(e))];
  }

  /** One more edge appends the lines of its items. */
  lemma FlowLinesSnoc(es: seq<Edge>, k: nat)
    requires k < |es|
    ensures FlowLines(es[..k + 1]) == FlowLines(es[..k]) + RenderAll(EdgeItems(Added(es[..k]), es[k]))
    ensures Added(es[..k + 1]) == Added(es[..k]) + {es[k].caller, es[k].callee}
  {
    FlowStep(es, k);
    var a := FlowItems(es[..k]);
    var b := EdgeItems(Added(es[..k]), es[k]);
    RenderAllAppend(a, b);
    assert ["flowchart TD"] + RenderAll(a) + RenderAll(b) == ["flowchart TD"] + (RenderAll(a) + RenderAll(b));
  }

  method FlowchartLines(es: seq<Edge>) returns (lines: seq<string>)
    ensures lines == FlowLines(es)
  {
    lines := ["flowchart TD"];
    var added: set<string> := {};
    for k := 0 to |es|
      invariant lines == FlowLines(es[..k])
      invariant added == Added(es[..k])
    {
      FlowLinesSnoc(es, k);
      lines, added := EmitEdge(lines, added, es[k]);
    }
    assert es[..|es|] == es;
  }

  /** The edges the items draw, in order. */
  function Links(items: seq<FlowItem>): seq<Edge> {
    if |items| == 0 then []
    else Links(items[..|items| - 1]) + (if items[|items| - 1].Link? then [items[|items| - 1].edge] else [])
  }

  /** The names the items declare, in order. */
  function Declared(items: seq<FlowItem>): seq<string> {
    if |items| == 0 then []
    else Declared(items[..|items| - 1]) + (if items[|items| - 1].Declare? then [items[|items| - 1].name] else [])
  }

  lemma {:induction false} LinksAppend(a: seq<FlowItem>, b: seq<FlowItem>)
    ensures Links(a + b) == Links(a) + Links(b)
  {
    if |b| > 0 {
      LinksAppend(a, b[..|b| - 1]);
      assert (a + b)[..|a + b| - 1] == a + b[..|b| - 1];
    } else {
      assert a + b == a;
    }
  }

  lemma {:induction false} DeclaredAppend(a: seq<FlowItem>, b: seq<FlowItem>)
    ensures Declared(a + b) == Declared(a) + Declared(b)
  {
    if |b| > 0 {
      DeclaredAppend(a, b[..|b| - 1]);
      assert (a + b)[..|a + b| - 1] == a + b[..|b| - 1];
    } else {
      assert a + b == a;
    }
  }

  lemma LinksOfBlock(added: set<string>, e: Edge)
    ensures Links(EdgeItems(added, e)) == [e]
  {
    var c := DeclareNew(added, e.caller);
    var d := DeclareNew(added + {e.caller}, e.callee);
    LinksAppend(c + d, [Link(e)]);
    LinksAppend(c, d);
    assert Links([Link(e)]) == [e] by {
      assert [Link(e)][..0] == [];
    }
    if |c| > 0 {
      assert c[..0] == [];
    }
    if |d| > 0 {
      assert d[..0] == [];
    }
  }

  lemma DeclaredOfBlock(added: set<string>, e: Edge)
    ensures Declared(EdgeItems(added, e)) == News(added, e)
  {
    var c := DeclareNew(added, e.caller);
    var d := DeclareNew(added + {e.caller}, e.callee);
    DeclaredAppend(c + d, [Link(e)]);
    DeclaredAppend(c, d);
    assert Declared([Link(e)]) == [] by {
      assert [Link(e)][..0] == [];
    }
    if |c| > 0 {
      assert c[..0] == [];
    }
    if |d| > 0 {
      assert d[..0] == [];
    }
  }

  /** The flowchart draws every edge once, in order. */
  lemma {:induction false} FlowDrawsEveryEdge(es: seq<Edge>)
    ensures Links(FlowItems(es)) == es
  {
    if |es| > 0 {
      var init := es[..|es| - 1];
      var e := es[|es| - 1];
      FlowDrawsEveryEdge(init);
      assert FlowItems(es) == FlowItems(init) + EdgeItems(Added(init), e);
      LinksOfFlowStep(FlowItems(init), Added(init), e);
      assert es == init + [e];
    }
  }

  lemma LinksOfFlowStep(a: seq<FlowItem>, added: set<string>, e: Edge)
    ensures Links(a + EdgeItems(added, e)) == Links(a) + [e]
  {
    LinksAppend(a, EdgeItems(added, e));
    LinksOfBlock(added, e);
  }

  /** The names one edge declares: its endpoints that were not added before. */
  function News(added: set<string>, e: Edge): seq<string> {
    (if e.caller in added then [] else [e.caller]) + (if e.callee in added + {e.caller} then [] else [e.callee])
  }

  lemma NewsFacts(seen: seq<string>, added: set<string>, e: Edge)
    requires NoDuplicates(seen)
    requires forall n :: n in seen <==> n in added
    ensures NoDuplicates(seen + News(added, e))
    ensures forall n :: n in seen + News(added, e) <==> n in added + {e.caller, e.callee}
  {
    var news := News(added, e);
    forall i, j | 0 <= i < j < |seen + news| ensures (seen + news)[i] != (seen + news)[j] {
      if j >= |seen| {
        assert (seen + news)[j] in news;
        if i < |seen| {
          assert (seen + news)[i] in seen;
        }
      }
    }
  }

  /** The flowchart declares each endpoint of the drawn edges exactly once. */
  lemma {:induction false} FlowDeclaresOnce(es: seq<Edge>)
    ensures NoDuplicates(Declared(FlowItems(es)))
    ensures forall n :: n in Declared(FlowItems(es)) <==> n in Added(es)
  {
    if |es| > 0 {
      var init := es[..|es| - 1];
      var e := es[|es| - 1];
      var a := FlowItems(init);
      var b := EdgeItems(Added(init), e);
      assert FlowItems(es) == a + b;
      assert Added(es) == Added(init) + {e.caller, e.callee};
      FlowDeclaresOnce(init);
      DeclaredAppend(a, b);
      DeclaredOfBlock(Added(init), e);
      NewsFacts(Declared(a), Added(init), e);
    }
  }

  /** Every edge statement comes after the declarations of both of its endpoints. */
  predicate DeclaredBeforeUse(items: seq<FlowItem>) {
    |items| == 0 ||
    (DeclaredBeforeUse(items[..|items| - 1]) &&
     (items[|items| - 1].Link? ==>
        items[|items| - 1].edge.caller in Declared(items[..|items| - 1]) &&
        items[|items| - 1].edge.callee in Declared(items[..|items| - 1])))
  }

  lemma DeclaredBeforeUseSnoc(items: seq<FlowItem>, it: FlowItem)
    requires DeclaredBeforeUse(items)
    requires it.Link? ==> it.edge.caller in Declared(items) && it.edge.callee in Declared(items)
    ensures DeclaredBeforeUse(items + [it])
  {
    assert (items + [it])[..|items|] == items;
  }

  lemma DeclaredSnoc(items: seq<FlowItem>, it: FlowItem)
    ensures Declared(items + [it]) == Declared(items) + (if it.Declare? then [it.name] else [])
  {
    assert (items + [it])[..|items|] == items;
  }

  /** Declaring a name that was not added keeps declarations ahead of uses. */
  lemma DeclareNewKeepsOrder(s0: seq<FlowItem>, added: set<string>, n: string)
    requires DeclaredBeforeUse(s0)
    requires forall m :: m in added ==> m in Declared(s0)
    ensures DeclaredBeforeUse(s0 + DeclareNew(added, n))
    ensures forall m :: m in added + {n} ==> m in Declared(s0 + DeclareNew(added, n))
  {
    if n !in added {
      DeclaredBeforeUseSnoc(s0, Declare(n));
      DeclaredSnoc(s0, Declare(n));
    } else {
      assert s0 + DeclareNew(added, n) == s0;
    }
  }

  /** One edge's items keep declarations ahead of uses when every added name is declared. */
  lemma BlockDeclaresBeforeUse(s0: seq<FlowItem>, added: set<string>, e: Edge)
    requires DeclaredBeforeUse(s0)
    requires forall n :: n in added ==> n in Declared(s0)
    ensures DeclaredBeforeUse(s0 + EdgeItems(added, e))
  {
    var s1 := s0 + DeclareNew(added, e.caller);
    DeclareNewKeepsOrder(s0, added, e.caller);
    var s2 := s1 + DeclareNew(added + {e.caller}, e.callee);
    DeclareNewKeepsOrder(s1, added + {e.caller}, e.callee);
    assert e.caller in Declared(s2) && e.callee in Declared(s2);
    DeclaredBeforeUseSnoc(s2, Link(e));
    var d1 := DeclareNew(added, e.caller);
    var d2 := DeclareNew(added + {e.caller}, e.callee);
    ConcatAssoc(s0, d1, d2, [Link(e)]);
  }

  lemma ConcatAssoc<T>(a: seq<T>, b: seq<T>, c: seq<T>, d: seq<T>)
    ensures a + b + c + d == a + (b + c + d)
  {
  }

  lemma {:induction false} FlowDeclaresBeforeUse(es: seq<Edge>)
    ensures DeclaredBeforeUse(FlowItems(es))
  {
    if |es| > 0 {
      var init := es[..|es| - 1];
      FlowDeclaresBeforeUse(init);
      FlowDeclaresOnce(init);
      BlockDeclaresBeforeUse(FlowItems(init), Added(init), es[|es| - 1]);
    }
  }

  // ---------------------------------------------------------------------------
  // mindmap

  const MindmapHeader: seq<string> := ["mindmap", "  root((代码结构))"]

  function Leaves(fns: seq<string>): seq<string> {
    seq(|fns|, i requires 0 <= i < |fns| => "      " + CleanFunctionName(fns[i]))
  }

  /** A group with functions: its label, then its first five names, cleaned. */
  function MindBlock(g: ModuleGroup, fns: seq<string>): seq<string> {
    if |fns| == 0 then [] else ["    " + GroupLabel(g)] + Leaves(PyPrefix(fns, 5))
  }

  function FunctionsOf(modules: map<ModuleGroup, seq<string>>, g: ModuleGroup): seq<string> {
    if g in modules then modules[g] else []
  }

  /** The groups in the order of `modules`, each with its block. */
  function MindBody(order: seq<ModuleGroup>, modules: map<ModuleGroup, seq<string>>): seq<string> {
    if |order| == 0 then []
    else MindBody(order[..|order| - 1], modules) + MindBlock(order[|order| - 1], FunctionsOf(modules, order[|order| - 1]))
  }

  function MindLines(order: seq<ModuleGroup>, modules: map<ModuleGroup, seq<string>>): seq<string> {
    MindmapHeader + MindBody(order, modules)
  }

  lemma MindLinesSnoc(order: seq<ModuleGroup>, modules: map<ModuleGroup, seq<string>>, k: nat)
    requires k < |order|
    ensures MindLines(order[..k + 1], modules)
      == MindLines(order[..k], modules) + MindBlock(order[k], FunctionsOf(modules, order[k]))
  {
    assert order[..k + 1][..k] == order[..k];
  }

  /** The body of the mindmap loop for one group. */
  method EmitGroup(lines: seq<string>, g: ModuleGroup, functions: seq<string>) returns (lines': seq<string>)
    ensures lines' == lines + MindBlock(g, functions)
  {
    lines' := lines;
    if |functions| > 0 {
      lines' := lines' + ["    " + GroupLabel(g)];
      var shown := PyPrefix(functions, 5);
      var before := lines';
      for j := 0 to |shown|
        invariant lines' == before + Leaves(shown[..j])
      {
        lines' := lines' + ["      " + CleanFunctionName(shown[j])];
      }
      assert shown[..|shown|] == shown;
    }
  }

  method MindmapLines(order: seq<ModuleGroup>, modules: map<ModuleGroup, seq<string>>) returns (lines: seq<string>)
    ensures lines == MindLines(order, modules)
  {
    lines := MindmapHeader;
    for k := 0 to |order|
      invariant lines == MindLines(order[..k], modules)
    {
      MindLinesSnoc(order, modules, k);
      lines := EmitGroup(lines, order[k], FunctionsOf(modules, order[k]));
    }
    assert order[..|order|] == order;
  }

  /** Each group yields at most six lines, and a group with functions at least one. */
  lemma {:induction false} MindBodyBounds(order: seq<ModuleGroup>, modules: map<ModuleGroup, seq<string>>)
    ensures |MindBody(order, modules)| <= 6 * |order|
    ensures (forall g :: g in order ==> |FunctionsOf(modules, g)| > 0) ==> |MindBody(order, modules)| >= |order|
  {
    if |order| > 0 {
      var init := order[..|order| - 1];
      MindBodyBounds(init, modules);
      if forall g :: g in order ==> |FunctionsOf(modules, g)| > 0 {
        assert forall g :: g in init ==> g in order;
        assert order[|order| - 1] in order;
      }
    }
  }

  // ---------------------------------------------------------------------------
  // graph LR

  function GraphLine(e: Edge): string {
    "    " + CleanFunctionName(e.caller) + "[" + e.caller + "] --> " + CleanFunctionName(e.callee) + "[" + e.callee + "]"
  }

  function GraphLines(es: seq<Edge>): seq<string> {
    ["graph LR"] + seq(|es|, i requires 0 <= i < |es| => GraphLine(es[i]))
  }

  method GraphLinesOf(es: seq<Edge>) returns (lines: seq<string>)
    ensures lines == GraphLines(es)
  {
    lines := ["graph LR"];
    for k := 0 to |es|
      invariant lines == GraphLines(es[..k])
    {
      lines := lines + [GraphLine(es[k])];
    }
    assert es[..|es|] == es;
  }

  // ---------------------------------------------------------------------------
  // The chart

  function ChartLines(r: Report, chartType: string, maxNodes: int): seq<string> {
    var es := Truncated(r.callGraph, maxNodes);
    if chartType == "flowchart" then FlowLines(es)
    else if chartType == "mindmap" then MindLines(r.moduleOrder, r.modules)
    else GraphLines(es)
  }

  function MermaidChart(data: Dependencies, chartType: string, maxNodes: int): string {
    match data
    case InvalidChunkData => ErrorChart
    case Graph(r) => Join(ChartLines(r, chartType, maxNodes))
  }

  method GenerateMermaidChart(data: Dependencies, chartType: string, maxNodes: int) returns (chart: string)
    ensures chart == MermaidChart(data, chartType, maxNodes)
  {
    if data.InvalidChunkData? {
      return ErrorChart;
    }
    var es := Truncated(data.report.callGraph, maxNodes);
    var lines;
    if chartType == "flowchart" {
      lines := FlowchartLines(es);
    } else if chartType == "mindmap" {
      lines := MindmapLines(data.report.moduleOrder, data.report.modules);
    } else {
      lines := GraphLinesOf(es);
    }
    chart := Join(lines);
  }

  // ---------------------------------------------------------------------------
  // The chart text is its lines joined by newlines

  /** No name of the edges holds a newline. */
  predicate OneLineNames(es: seq<Edge>) {
    forall k :: 0 <= k < |es| ==> NoNewline(es[k].caller) && NoNewline(es[k].callee)
  }

  lemma {:induction false} AddedFromEdges(es: seq<Edge>, n: string)
    requires n in Added(es)
    ensures exists k :: 0 <= k < |es| && (es[k].caller == n || es[k].callee == n)
  {
    var init := es[..|es| - 1];
    if n in Added(init) {
      AddedFromEdges(init, n);
      var k :| 0 <= k < |init| && (init[k].caller == n || init[k].callee == n);
      assert es[k] == init[k];
    }
  }

  lemma {:induction false} DeclaredContains(items: seq<FlowItem>, i: nat)
    requires i < |items| && items[i].Declare?
    ensures items[i].name in Declared(items)
  {
    var init := items[..|items| - 1];
    if i < |init| {
      DeclaredContains(init, i);
      assert init[i] == items[i];
    }
  }

  lemma {:induction false} LinksContains(items: seq<FlowItem>, i: nat)
    requires i < |items| && items[i].Link?
    ensures items[i].edge in Links(items)
  {
    var init := items[..|items| - 1];
    if i < |init| {
      LinksContains(init, i);
      assert init[i] == items[i];
    }
  }

  lemma CleanOneLine(n: string)
    ensures NoNewline(CleanFunctionName(n))
  {
  }

  lemma DeclareOneLine(n: string)
    requires NoNewline(n)
    ensures NoNewline(RenderFlow(Declare(n)))
  {
    CleanOneLine(n);
    NoNewlineAppend("    ", CleanFunctionName(n));
    NoNewlineAppend("    " + CleanFunctionName(n), "[\"");
    NoNewlineAppend("    " + CleanFunctionName(n) + "[\"", n);
    NoNewlineAppend("    " + CleanFunctionName(n) + "[\"" + n, "\"]");
  }

  lemma LinkOneLine(e: Edge)
    ensures NoNewline(RenderFlow(Link(e)))
  {
    CleanOneLine(e.caller);
    CleanOneLine(e.callee);
    NoNewlineAppend("    ", CleanFunctionName(e.caller));
    NoNewlineAppend("    " + CleanFunctionName(e.caller), " --> ");
    NoNewlineAppend("    " + CleanFunctionName(e.caller) + " --> ", CleanFunctionName(e.callee));
  }

  lemma FlowLinesOneLine(es: seq<Edge>)
    requires OneLineNames(es)
    ensures AllNoNewline(FlowLines(es))
  {
    var items := FlowItems(es);
    FlowDeclaresOnce(es);
    FlowDrawsEveryEdge(es);
    forall i | 0 <= i < |items| ensures NoNewline(RenderAll(items)[i]) {
      match items[i]
      case Declare(n) =>
        DeclaredContains(items, i);
        AddedFromEdges(es, n);
        DeclareOneLine(n);
      case Link(e) =>
        LinkOneLine(e);
    }
    AllNoNewlineAppend(["flowchart TD"], RenderAll(items));
  }

  lemma LabelOneLine(g: ModuleGroup)
    ensures NoNewline("    " + GroupLabel(g))
  {
  }

  lemma LeavesOneLine(fns: seq<string>)
    ensures AllNoNewline(Leaves(fns))
  {
    forall i | 0 <= i < |fns| ensures NoNewline(Leaves(fns)[i]) {
      CleanOneLine(fns[i]);
      NoNewlineAppend("      ", CleanFunctionName(fns[i]));
    }
  }

  lemma BlockOneLine(g: ModuleGroup, fns: seq<string>)
    ensures AllNoNewline(MindBlock(g, fns))
  {
    if |fns| > 0 {
      LeavesOneLine(PyPrefix(fns, 5));
      LabelOneLine(g);
      AllNoNewlineAppend(["    " + GroupLabel(g)], Leaves(PyPrefix(fns, 5)));
    }
  }

  lemma {:induction false} MindBodyOneLine(order: seq<ModuleGroup>, modules: map<ModuleGroup, seq<string>>)
    ensures AllNoNewline(MindBody(order, modules))
  {
    if |order| > 0 {
      var init := order[..|order| - 1];
      var g := order[|order| - 1];
      MindBodyOneLine(init, modules);
      BlockOneLine(g, FunctionsOf(modules, g));
      AllNoNewlineAppend(MindBody(init, modules), MindBlock(g, FunctionsOf(modules, g)));
    }
  }

  lemma GraphLineOneLine(e: Edge)
    requires NoNewline(e.caller) && NoNewline(e.callee)
    ensures NoNewline(GraphLine(e))
  {
    CleanOneLine(e.caller);
    CleanOneLine(e.callee);
    var a := "    " + CleanFunctionName(e.caller);
    NoNewlineAppend("    ", CleanFunctionName(e.caller));
    NoNewlineAppend(a, "[");
    NoNewlineAppend(a + "[", e.caller);
    NoNewlineAppend(a + "[" + e.caller, "] --> ");
    NoNewlineAppend(a + "[" + e.caller + "] --> ", CleanFunctionName(e.callee));
    NoNewlineAppend(a + "[" + e.caller + "] --> " + CleanFunctionName(e.callee), "[");
    NoNewlineAppend(a + "[" + e.caller + "] --> " + CleanFunctionName(e.callee) + "[", e.callee);
    NoNewlineAppend(a + "[" + e.caller + "] --> " + CleanFunctionName(e.callee) + "[" + e.callee, "]");
  }

  lemma GraphLinesOneLine(es: seq<Edge>)
    requires OneLineNames(es)
    ensures AllNoNewline(GraphLines(es))
  {
    var body := seq(|es|, i requires 0 <= i < |es| => GraphLine(es[i]));
    forall i | 0 <= i < |es| ensures NoNewline(body[i]) {
      GraphLineOneLine(es[i]);
    }
    AllNoNewlineAppend(["graph LR"], body);
  }

  /**
   * When no function name holds a newline, splitting the chart at newlines gives back exactly
   * the lines of the chosen dialect, whose edge lines come from the first `max_nodes` edges.
   */
  lemma ChartSplitsIntoLines(r: Report, chartType: string, maxNodes: int)
    requires OneLineNames(r.callGraph)
    ensures Split(MermaidChart(Graph(r), chartType, maxNodes)) == ChartLines(r, chartType, maxNodes)
  {
    var es := Truncated(r.callGraph, maxNodes);
    assert OneLineNames(es) by {
      forall k | 0 <= k < |es| ensures NoNewline(es[k].caller) && NoNewline(es[k].callee) {
        assert es[k] == r.callGraph[k];
      }
    }
    if chartType == "flowchart" {
      FlowLinesOneLine(es);
    } else if chartType == "mindmap" {
      MindBodyOneLine(r.moduleOrder, r.modules);
      AllNoNewlineAppend(MindmapHeader, MindBody(r.moduleOrder, r.modules));
    } else {
      GraphLinesOneLine(es);
    }
    SplitJoin(ChartLines(r, chartType, maxNodes));
  }
}
