/**
 * `analyze_dependencies` (src/tools/mcp_tools.py): the call graph over the records of every
 * chunk, the inbound caller lists, the importance score and module group of each function,
 * the stable ranking by score, the critical prefix of that ranking, the grouping of names by
 * module and the summary statistics.
 *
 * The importance score `2·in + 0.5·out + 0.1·complexity` is kept exactly as ten times its
 * value, `20·in + 5·out + complexity`, which ranks functions the same way.
 */
module Dependencies {
  import opened Text
  import opened Analyzer
  import opened Chunker

  /** The chunk data handed in: what `chunk_code` produced, or a dictionary with an error. */
  datatype ChunksInput = ChunkError | ChunksOk(chunks: seq<Chunk>)

  /** One `(caller, callee)` pair of `call_graph`. */
  datatype Edge = Edge(caller: string, callee: string)

  /** The value `all_functions[name]` holds. */
  datatype Entry = Entry(calls: seq<string>, calledBy: seq<string>, complexity: int, lineCount: int)

  datatype ModuleGroup = Modbus | Network | Serial | Lifecycle | DataAccess | Core

  /** One element of `dependency_nodes`; `score` is ten times `importance_score`. */
  datatype Node = Node(
    name: string,
    calls: seq<string>,
    calledBy: seq<string>,
    score: int,
    group: ModuleGroup,
    complexity: int)

  datatype Statistics = Statistics(maxCallsIn: nat, maxCallsOut: nat, complexitySum: int, functionCount: nat)

  datatype Report = Report(
    totalFunctions: nat,
    totalRelationships: nat,
    nodes: seq<Node>,
    critical: seq<string>,
    moduleOrder: seq<ModuleGroup>,
    modules: map<ModuleGroup, seq<string>>,
    callGraph: seq<Edge>,
    statistics: Statistics)

  datatype Dependencies = InvalidChunkData | Graph(report: Report)

  // ---------------------------------------------------------------------------
  // Collecting the records

  /** The entry a record sets, before any caller is linked to it. */
  function FreshEntry(f: FunctionInfo): Entry {
    Entry(f.calls, [], f.complexity, f.endLine - f.startLine)
  }

  function RecordNames(fs: seq<FunctionInfo>): seq<string> {
    seq(|fs|, i requires 0 <= i < |fs| => fs[i].name)
  }

  /** The keys of `all_functions` in insertion order: each name where it first occurs. */
  function Keys(fs: seq<FunctionInfo>): seq<string> {
    Dedup(RecordNames(fs))
  }

  /** `all_functions` after the first loop: a later record of a name overwrites an earlier one. */
  function Collected(fs: seq<FunctionInfo>): map<string, Entry> {
    if |fs| == 0 then map[]
    else Collected(fs[..|fs| - 1])[fs[|fs| - 1].name := FreshEntry(fs[|fs| - 1])]
  }

  function EdgesFrom(caller: string, calls: seq<string>): seq<Edge> {
    if |calls| == 0 then []
    else EdgesFrom(caller, calls[..|calls| - 1]) + [Edge(caller, calls[|calls| - 1])]
  }

  /** `call_graph`: one edge per listed call of every record, in record order. */
  function Edges(fs: seq<FunctionInfo>): seq<Edge> {
    if |fs| == 0 then []
    else Edges(fs[..|fs| - 1]) + EdgesFrom(fs[|fs| - 1].name, fs[|fs| - 1].calls)
  }

  lemma {:induction false} CollectedDomain(fs: seq<FunctionInfo>)
    ensures forall n :: n in Collected(fs) <==> n in RecordNames(fs)
  {
    if |fs| > 0 {
      var init := fs[..|fs| - 1];
      CollectedDomain(init);
      assert RecordNames(fs) == RecordNames(init) + [fs[|fs| - 1].name];
    }
  }

  /** The keys are the record names, each once. */
  lemma KeysFacts(fs: seq<FunctionInfo>)
    ensures NoDuplicates(Keys(fs))
    ensures forall n :: n in Keys(fs) <==> n in Collected(fs)
    ensures forall n :: n in Keys(fs) <==> exists k :: 0 <= k < |fs| && fs[k].name == n
  {
    DedupFacts(RecordNames(fs));
    CollectedDomain(fs);
    forall n ensures n in RecordNames(fs) <==> exists k :: 0 <= k < |fs| && fs[k].name == n {
      RecordNamesIff(fs, n);
    }
  }

  lemma RecordNamesIff(fs: seq<FunctionInfo>, n: string)
    ensures n in RecordNames(fs) <==> exists k :: 0 <= k < |fs| && fs[k].name == n
  {
    var names := RecordNames(fs);
    if n in names {
      var k :| 0 <= k < |names| && names[k] == n;
      assert fs[k].name == n;
    }
    if exists k :: 0 <= k < |fs| && fs[k].name == n {
      var k :| 0 <= k < |fs| && fs[k].name == n;
      assert names[k] == n;
    }
  }

  /** One more record adds its name to the keys exactly when the map lacks it. */
  lemma KeysStep(fs: seq<FunctionInfo>, k: nat)
    requires k < |fs|
    ensures Keys(fs[..k + 1]) == if fs[k].name in Collected(fs[..k]) then Keys(fs[..k]) else Keys(fs[..k]) + [fs[k].name]
  {
    var names := RecordNames(fs[..k + 1]);
    assert names[..k] == RecordNames(fs[..k]);
    assert names[..k + 1] == names;
    DedupSnoc(names, k);
    KeysFacts(fs[..k]);
  }

  lemma RecordsStep(fs: seq<FunctionInfo>, k: nat)
    requires k < |fs|
    ensures Collected(fs[..k + 1]) == Collected(fs[..k])[fs[k].name := FreshEntry(fs[k])]
    ensures Edges(fs[..k + 1]) == Edges(fs[..k]) + EdgesFrom(fs[k].name, fs[k].calls)
  {
    assert fs[..k + 1][..k] == fs[..k];
  }

  /** The first loop of `analyze_dependencies`; `order` is the insertion order of the map. */
  method CollectFunctions(fs: seq<FunctionInfo>) returns (info: map<string, Entry>, order: seq<string>, callGraph: seq<Edge>)
    ensures info == Collected(fs)
    ensures order == Keys(fs)
    ensures callGraph == Edges(fs)
  {
    info := map[];
    order := [];
    callGraph := [];
    for k := 0 to |fs|
      invariant info == Collected(fs[..k])
      invariant order == Keys(fs[..k])
      invariant callGraph == Edges(fs[..k])
    {
      var f := fs[k];
      KeysStep(fs, k);
      RecordsStep(fs, k);
      if f.name !in info {
        order := order + [f.name];
      }
      info := info[f.name := FreshEntry(f)];
      callGraph := AppendEdges(callGraph, f.name, f.calls);
    }
    assert fs[..|fs|] == fs;
  }

  /** The inner loop: one edge per call of the record. */
  method AppendEdges(edges: seq<Edge>, caller: string, calls: seq<string>) returns (r: seq<Edge>)
    ensures r == edges + EdgesFrom(caller, calls)
  {
    r := edges;
    for j := 0 to |calls|
      invariant r == edges + EdgesFrom(caller, calls[..j])
    {
      assert calls[..j + 1][..j] == calls[..j];
      r := r + [Edge(caller, calls[j])];
    }
    assert calls[..|calls|] == calls;
  }

  // ---------------------------------------------------------------------------
  // Linking the callers

  /** The callers of `n`, one per edge into `n`, in edge order. */
  function Callers(es: seq<Edge>, n: string): seq<string> {
    if |es| == 0 then []
    else Callers(es[..|es| - 1], n) + (if es[|es| - 1].callee == n then [es[|es| - 1].caller] else [])
  }

  /** The second loop: every edge whose callee is a key appends its caller to that entry. */
  function Linked(info: map<string, Entry>, es: seq<Edge>): map<string, Entry> {
    if |es| == 0 then info
    else
      var m := Linked(info, es[..|es| - 1]);
      var e := es[|es| - 1];
      if e.callee in m then m[e.callee := m[e.callee].(calledBy := m[e.callee].calledBy + [e.caller])] else m
  }

  /** Linking adds no key and changes nothing but the caller lists, which gain the callers. */
  lemma {:induction false} LinkedFacts(info: map<string, Entry>, es: seq<Edge>)
    ensures Linked(info, es).Keys == info.Keys
    ensures forall n :: n in info ==> Linked(info, es)[n] == info[n].(calledBy := info[n].calledBy + Callers(es, n))
  {
    if |es| > 0 {
      var init := es[..|es| - 1];
      var e := es[|es| - 1];
      LinkedFacts(info, init);
      forall n | n in info
        ensures Linked(info, es)[n] == info[n].(calledBy := info[n].calledBy + Callers(es, n))
      {
        if n == e.callee {
          assert info[n].calledBy + Callers(init, n) + [e.caller] == info[n].calledBy + (Callers(init, n) + [e.caller]);
        } else {
          assert Callers(es, n) == Callers(init, n) + [];
        }
      }
    }
  }

  method LinkCallers(info0: map<string, Entry>, callGraph: seq<Edge>) returns (info: map<string, Entry>)
    ensures info == Linked(info0, callGraph)
  {
    info := info0;
    for k := 0 to |callGraph|
      invariant info == Linked(info0, callGraph[..k])
    {
      assert callGraph[..k + 1][..k] == callGraph[..k];
      var e := callGraph[k];
      if e.callee in info {
        info := info[e.callee := info[e.callee].(calledBy := info[e.callee].calledBy + [e.caller])];
      }
    }
    assert callGraph[..|callGraph|] == callGraph;
  }

  // ---------------------------------------------------------------------------
  // Scoring and grouping one function

  function GroupLabel(g: ModuleGroup): string {
    match g
    case Modbus => "modbus"
    case Network => "network"
    case Serial => "serial"
    case Lifecycle => "lifecycle"
    case DataAccess => "data_access"
    case Core => "core"
  }

  /** The module ladder, applied to the lower-cased name. */
  function GroupOf(name: string): (g: ModuleGroup)
    ensures g == Modbus <==> Contains(Lower(name), "modbus")
    ensures g == Core ==> forall w :: w in CoreMisses ==> !Contains(Lower(name), w)
  {
    var n := Lower(name);
    if Contains(n, "modbus") then Modbus
    else if Contains(n, "tcp") then Network
    else if Contains(n, "rtu") then Serial
    else if Contains(n, "init") || Contains(n, "free") then Lifecycle
    else if Contains(n, "get") || Contains(n, "set") then DataAccess
    else Core
  }

  /** Every keyword of the ladder: a `core` name contains none of them. */
  const CoreMisses: seq<string> := ["modbus", "tcp", "rtu", "init", "free", "get", "set"]

  /** The rule table the ladder follows: the keywords of each group and its priority. */
  function GroupKeywords(g: ModuleGroup): seq<string> {
    match g
    case Modbus => ["modbus"]
    case Network => ["tcp"]
    case Serial => ["rtu"]
    case Lifecycle => ["init", "free"]
    case DataAccess => ["get", "set"]
    case Core => []
  }

  function Priority(g: ModuleGroup): nat {
    match g
    case Modbus => 0
    case Network => 1
    case Serial => 2
    case Lifecycle => 3
    case DataAccess => 4
    case Core => 5
  }

  predicate Hits(g: ModuleGroup, n: string) {
    HitsAny(GroupKeywords(g), n)
  }

  /** A name falls in the first group by priority whose keyword it contains, else in `Core`. */
  lemma GroupOfFirstHit(name: string, g: ModuleGroup)
    ensures GroupOf(name) == g <==>
      (g == Core || Hits(g, Lower(name))) && forall h :: Priority(h) < Priority(g) ==> !Hits(h, Lower(name))
  {
    var n := Lower(name);
    HitsOne("modbus", n);
    HitsOne("tcp", n);
    HitsOne("rtu", n);
    HitsTwo("init", "free", n);
    HitsTwo("get", "set", n);
    assert Hits(Modbus, n) == Contains(n, "modbus");
    assert Hits(Network, n) == Contains(n, "tcp");
    assert Hits(Serial, n) == Contains(n, "rtu");
    assert Hits(Lifecycle, n) == (Contains(n, "init") || Contains(n, "free"));
    assert Hits(DataAccess, n) == (Contains(n, "get") || Contains(n, "set"));
    assert !Hits(Core, n);
    forall h ensures Priority(h) < Priority(g) ==> !Hits(h, n) || GroupOf(name) != g {
      match h
      case Modbus =>
      case Network =>
      case Serial =>
      case Lifecycle =>
      case DataAccess =>
      case Core =>
    }
  }

  lemma HitsOne(a: string, n: string)
    ensures HitsAny([a], n) == Contains(n, a)
  {
    assert [a][1..] == [];
  }

  lemma HitsTwo(a: string, b: string, n: string)
    ensures HitsAny([a, b], n) == (Contains(n, a) || Contains(n, b))
  {
    assert [a, b][1..] == [b];
    HitsOne(b, n);
  }

  /** `importance_score` scaled by ten, so that it is exact: ten times
      `calls_in * 2 + calls_out * 0.5 + complexity * 0.1` over the reals. */
  function Score(callsIn: nat, callsOut: nat, complexity: int): (s: int)
    ensures s as real == 10.0 * (callsIn as real * 2.0 + callsOut as real * 0.5 + complexity as real * 0.1)
  {
    20 * callsIn + 5 * callsOut + complexity
  }

  function NodeOf(name: string, e: Entry): Node {
    Node(name, e.calls, e.calledBy, Score(|e.calledBy|, |e.calls|, e.complexity), GroupOf(name), e.complexity)
  }

  /** `dependency_nodes` before sorting: one node per key, in key order. */
  function NodesFrom(info: map<string, Entry>, names: seq<string>): seq<Node>
    requires forall n :: n in names ==> n in info
  {
    seq(|names|, i requires 0 <= i < |names| => NodeOf(names[i], info[names[i]]))
  }

  method BuildNodes(info: map<string, Entry>, order: seq<string>) returns (nodes: seq<Node>)
    requires forall n :: n in order ==> n in info
    ensures nodes == NodesFrom(info, order)
  {
    nodes := [];
    for k := 0 to |order|
      invariant nodes == NodesFrom(info, order[..k])
    {
      var name := order[k];
      var e := info[name];
      nodes := nodes + [NodeOf(name, e)];
    }
    assert order[..|order|] == order;
  }

  function NodeNames(s: seq<Node>): seq<string> {
    seq(|s|, i requires 0 <= i < |s| => s[i].name)
  }

  // ---------------------------------------------------------------------------
  // The ranking: `sort(key=importance_score, reverse=True)`, which is stable

  /** Puts `x` in front of the first node that does not outscore it. */
  function Insert(x: Node, r: seq<Node>): (s: seq<Node>)
    ensures |s| == |r| + 1
  {
    if |r| == 0 then [x]
    else if r[0].score <= x.score then [x] + r
    else [r[0]] + Insert(x, r[1..])
  }

  function SortByScore(s: seq<Node>): (r: seq<Node>)
    ensures |r| == |s|
  {
    if |s| == 0 then [] else Insert(s[0], SortByScore(s[1..]))
  }

  /** Each node scores at least as much as the next. */
  predicate Descending(s: seq<Node>) {
    |s| < 2 || (s[0].score >= s[1].score && Descending(s[1..]))
  }

  /** The nodes of a given score, in order: what a stable sort must keep. */
  function WithScore(s: seq<Node>, v: int): seq<Node> {
    if |s| == 0 then [] else (if s[0].score == v then [s[0]] else []) + WithScore(s[1..], v)
  }

  lemma InsertHead(x: Node, r: seq<Node>)
    ensures Insert(x, r)[0] == x || (|r| > 0 && Insert(x, r)[0] == r[0])
  {
  }

  lemma {:induction false} InsertDescending(x: Node, r: seq<Node>)
    requires Descending(r)
    ensures Descending(Insert(x, r))
  {
    if |r| > 0 && r[0].score > x.score {
      var t := Insert(x, r[1..]);
      InsertDescending(x, r[1..]);
      InsertHead(x, r[1..]);
      assert ([r[0]] + t)[1..] == t;
    } else if |r| > 0 {
      assert ([x] + r)[1..] == r;
    }
  }

  lemma {:induction false} InsertMultiset(x: Node, r: seq<Node>)
    ensures multiset(Insert(x, r)) == multiset(r) + multiset{x}
  {
    if |r| > 0 && r[0].score > x.score {
      InsertMultiset(x, r[1..]);
      assert r == [r[0]] + r[1..];
    }
  }

  lemma WithScoreCons(y: Node, t: seq<Node>, v: int)
    ensures WithScore([y] + t, v) == (if y.score == v then [y] else []) + WithScore(t, v)
  {
    assert ([y] + t)[1..] == t;
  }

  lemma {:induction false} InsertStable(x: Node, r: seq<Node>, v: int)
    ensures WithScore(Insert(x, r), v) == (if x.score == v then [x] else []) + WithScore(r, v)
  {
    if |r| == 0 {
    } else if r[0].score <= x.score {
      WithScoreCons(x, r, v);
    } else {
      InsertStable(x, r[1..], v);
      WithScoreCons(r[0], Insert(x, r[1..]), v);
      WithScoreCons(r[0], r[1..], v);
      assert [r[0]] + r[1..] == r;
    }
  }

  /** The ranking is descending and a permutation of the nodes. */
  lemma {:induction false} SortFacts(s: seq<Node>)
    ensures Descending(SortByScore(s))
    ensures multiset(SortByScore(s)) == multiset(s)
  {
    if |s| > 0 {
      SortFacts(s[1..]);
      InsertDescending(s[0], SortByScore(s[1..]));
      InsertMultiset(s[0], SortByScore(s[1..]));
      assert s == [s[0]] + s[1..];
    }
  }

  /** Nodes of equal score keep their relative order: the sort is stable. */
  lemma {:induction false} SortStable(s: seq<Node>, v: int)
    ensures WithScore(SortByScore(s), v) == WithScore(s, v)
  {
    if |s| > 0 {
      SortStable(s[1..], v);
      InsertStable(s[0], SortByScore(s[1..]), v);
    }
  }

  /** A descending sequence dominates pairwise. */
  lemma {:induction false} DescendingPairs(s: seq<Node>, i: nat, j: nat)
    requires Descending(s) && i <= j < |s|
    ensures s[i].score >= s[j].score
    decreases j
  {
    if i < j {
      DescendingPairs(s, i, j - 1);
      DescendingSuffix(s, j - 1);
    }
  }

  lemma {:induction false} DescendingSuffix(s: seq<Node>, k: nat)
    requires Descending(s) && k + 1 < |s|
    ensures s[k].score >= s[k + 1].score
    decreases k
  {
    if k > 0 {
      DescendingSuffix(s[1..], k - 1);
    }
  }

  // ---------------------------------------------------------------------------
  // The critical prefix and the module grouping

  /** How many functions are critical: a tenth of them, rounded down, but at least one
      (`max(1, n // 10)`). */
  function CriticalCount(n: nat): nat {
    if n / 10 > 1 then n / 10 else 1
  }

  /** The `critical_functions` list: the names of the first `CriticalCount` ranked nodes
      (`[f["name"] for f in dependency_nodes[:critical_count]]`). */
  function CriticalNames(sorted: seq<Node>): seq<string> {
    NodeNames(PyPrefix(sorted, CriticalCount(|sorted|)))
  }

  function GroupsOf(s: seq<Node>): seq<ModuleGroup> {
    seq(|s|, i requires 0 <= i < |s| => s[i].group)
  }

  /** The keys of `modules` in insertion order. */
  function ModuleOrder(s: seq<Node>): seq<ModuleGroup> {
    Dedup(GroupsOf(s))
  }

  /** `modules`: each group's names, in ranking order. */
  function Grouped(s: seq<Node>): map<ModuleGroup, seq<string>> {
    if |s| == 0 then map[]
    else
      var m := Grouped(s[..|s| - 1]);
      var x := s[|s| - 1];
      m[x.group := (if x.group in m then m[x.group] else []) + [x.name]]
  }

  /** The names of the nodes in group `g`, in order. */
  function NamesInGroup(s: seq<Node>, g: ModuleGroup): seq<string> {
    if |s| == 0 then []
    else NamesInGroup(s[..|s| - 1], g) + (if s[|s| - 1].group == g then [s[|s| - 1].name] else [])
  }

  lemma {:induction false} GroupedFacts(s: seq<Node>)
    ensures forall g :: g in Grouped(s) <==> g in GroupsOf(s)
    ensures forall g :: g in Grouped(s) ==> Grouped(s)[g] == NamesInGroup(s, g)
  {
    if |s| > 0 {
      var init := s[..|s| - 1];
      GroupedFacts(init);
      assert GroupsOf(s) == GroupsOf(init) + [s[|s| - 1].group];
      forall g | g !in Grouped(init) ensures NamesInGroup(init, g) == [] {
        NoGroupNoNames(init, g);
      }
    }
  }

  lemma {:induction false} NoGroupNoNames(s: seq<Node>, g: ModuleGroup)
    requires g !in GroupsOf(s)
    ensures NamesInGroup(s, g) == []
  {
    if |s| > 0 {
      var init := s[..|s| - 1];
      assert GroupsOf(s) == GroupsOf(init) + [s[|s| - 1].group];
      NoGroupNoNames(init, g);
    }
  }

  lemma GroupStep(s: seq<Node>, k: nat)
    requires k < |s|
    ensures ModuleOrder(s[..k + 1]) == if s[k].group in Grouped(s[..k]) then ModuleOrder(s[..k]) else ModuleOrder(s[..k]) + [s[k].group]
    ensures Grouped(s[..k + 1]) == Grouped(s[..k])[s[k].group := (if s[k].group in Grouped(s[..k]) then Grouped(s[..k])[s[k].group] else []) + [s[k].name]]
  {
    var gs := GroupsOf(s[..k + 1]);
    assert gs[..k] == GroupsOf(s[..k]);
    assert gs[..k + 1] == gs;
    assert s[..k + 1][..k] == s[..k];
    DedupSnoc(gs, k);
    GroupedFacts(s[..k]);
    DedupFacts(GroupsOf(s[..k]));
  }

  /** The third loop: names appended to their group, groups in first-seen order. */
  method GroupModules(sorted: seq<Node>) returns (order: seq<ModuleGroup>, modules: map<ModuleGroup, seq<string>>)
    ensures order == ModuleOrder(sorted)
    ensures modules == Grouped(sorted)
  {
    order := [];
    modules := map[];
    for k := 0 to |sorted|
      invariant order == ModuleOrder(sorted[..k])
      invariant modules == Grouped(sorted[..k])
    {
      GroupStep(sorted, k);
      var node := sorted[k];
      if node.group !in modules {
        order := order + [node.group];
        modules := modules[node.group := []];
      }
      modules := modules[node.group := modules[node.group] + [node.name]];
    }
    assert sorted[..|sorted|] == sorted;
  }

  // ---------------------------------------------------------------------------
  // Statistics

  /** `max(xs, default=0)`. */
  function MaxOf(xs: seq<nat>): nat {
    if |xs| == 0 then 0
    else
      var m := MaxOf(xs[..|xs| - 1]);
      if xs[|xs| - 1] > m then xs[|xs| - 1] else m
  }

  /** `MaxOf` bounds every element and is one of them, or is 0 for no elements. */
  lemma {:induction false} MaxOfFacts(xs: seq<nat>)
    ensures forall i :: 0 <= i < |xs| ==> xs[i] <= MaxOf(xs)
    ensures |xs| == 0 ==> MaxOf(xs) == 0
    ensures |xs| > 0 ==> exists i :: 0 <= i < |xs| && xs[i] == MaxOf(xs)
  {
    if |xs| > 0 {
      var init := xs[..|xs| - 1];
      MaxOfFacts(init);
      if |init| > 0 && xs[|xs| - 1] <= MaxOf(init) {
        var i :| 0 <= i < |init| && init[i] == MaxOf(init);
        assert xs[i] == init[i];
      }
    }
  }

  function SumOf(xs: seq<int>): int {
    if |xs| == 0 then 0 else SumOf(xs[..|xs| - 1]) + xs[|xs| - 1]
  }

  function CallsIn(nodes: seq<Node>): (r: seq<nat>)
    ensures |r| == |nodes| && forall i :: 0 <= i < |nodes| ==> r[i] == |nodes[i].calledBy|
  {
    seq(|nodes|, i requires 0 <= i < |nodes| => |nodes[i].calledBy|)
  }

  function CallsOut(nodes: seq<Node>): (r: seq<nat>)
    ensures |r| == |nodes| && forall i :: 0 <= i < |nodes| ==> r[i] == |nodes[i].calls|
  {
    seq(|nodes|, i requires 0 <= i < |nodes| => |nodes[i].calls|)
  }

  function ComplexitiesOf(nodes: seq<Node>): (r: seq<int>)
    ensures |r| == |nodes| && forall i :: 0 <= i < |nodes| ==> r[i] == nodes[i].complexity
  {
    seq(|nodes|, i requires 0 <= i < |nodes| => nodes[i].complexity)
  }

  function StatisticsOf(nodes: seq<Node>): Statistics {
    Statistics(
      MaxOf(CallsIn(nodes)),
      MaxOf(CallsOut(nodes)),
      SumOf(ComplexitiesOf(nodes)),
      |nodes|)
  }

  // ---------------------------------------------------------------------------
  // The whole analysis

  lemma KeysInLinked(fs: seq<FunctionInfo>)
    ensures forall n :: n in Keys(fs) ==> n in Linked(Collected(fs), Edges(fs))
  {
    KeysFacts(fs);
    LinkedFacts(Collected(fs), Edges(fs));
  }

  /** The complexity entry of every distinct name, in key order: the complexities that the
      statistics average. */
  function KeyComplexities(fs: seq<FunctionInfo>): (r: seq<int>)
    ensures |r| == |Keys(fs)|
    ensures forall i :: 0 <= i < |Keys(fs)| ==>
      exists k :: 0 <= k < |fs| && fs[k].name == Keys(fs)[i] && r[i] == fs[k].complexity
                  && forall j :: k < j < |fs| ==> fs[j].name != Keys(fs)[i]
  {
    KeysFacts(fs);
    forall i | 0 <= i < |Keys(fs)|
      ensures exists k :: 0 <= k < |fs| && fs[k].name == Keys(fs)[i] && Collected(fs)[Keys(fs)[i]].complexity == fs[k].complexity
                          && forall j :: k < j < |fs| ==> fs[j].name != Keys(fs)[i]
    {
      CollectedLatest(fs, Keys(fs)[i]);
    }
    seq(|Keys(fs)|, i requires 0 <= i < |Keys(fs)| => Collected(fs)[Keys(fs)[i]].complexity)
  }

  /** The unsorted nodes, one per key. */
  function NodesOf(fs: seq<FunctionInfo>): (nodes: seq<Node>)
    ensures |nodes| == |Keys(fs)|
  {
    KeysInLinked(fs);
    NodesFrom(Linked(Collected(fs), Edges(fs)), Keys(fs))
  }

  /** The result of `analyze_dependencies` over the records of all chunks. */
  function ReportOf(fs: seq<FunctionInfo>): Report {
    var nodes := NodesOf(fs);
    var sorted := SortByScore(nodes);
    var edges := Edges(fs);
    Report(|Keys(fs)|, |edges|, sorted, CriticalNames(sorted), ModuleOrder(sorted), Grouped(sorted), edges, StatisticsOf(nodes))
  }

  method AnalyzeDependencies(input: ChunksInput) returns (r: Dependencies)
    ensures input.ChunkError? ==> r == InvalidChunkData
    ensures input.ChunksOk? ==> r == Graph(ReportOf(Flatten(input.chunks)))
  {
    if input.ChunkError? {
      return InvalidChunkData;
    }
    var fs := Flatten(input.chunks);
    var info, order, callGraph := CollectFunctions(fs);
    info := LinkCallers(info, callGraph);
    KeysInLinked(fs);
    var nodes := BuildNodes(info, order);
    var sorted := SortByScore(nodes);
    var critical := CriticalNames(sorted);
    var moduleOrder, modules := GroupModules(sorted);
    r := Graph(Report(|order|, |callGraph|, sorted, critical, moduleOrder, modules, callGraph, StatisticsOf(nodes)));
  }

  // ---------------------------------------------------------------------------
  // What the report says about the records

  lemma {:induction false} EdgesFromFacts(caller: string, calls: seq<string>)
    ensures |EdgesFrom(caller, calls)| == |calls|
    ensures forall e :: e in EdgesFrom(caller, calls) <==> e.caller == caller && e.callee in calls
  {
    if |calls| > 0 {
      var init := calls[..|calls| - 1];
      EdgesFromFacts(caller, init);
      assert calls == init + [calls[|calls| - 1]];
    }
  }

  /** The number of calls the records list, repeats included. */
  function CallCount(fs: seq<FunctionInfo>): nat {
    if |fs| == 0 then 0 else CallCount(fs[..|fs| - 1]) + |fs[|fs| - 1].calls|
  }

  /** `total_relationships` counts every listed call, and an edge is a call some record lists. */
  lemma {:induction false} EdgesFacts(fs: seq<FunctionInfo>)
    ensures |Edges(fs)| == CallCount(fs)
    ensures forall e :: e in Edges(fs) <==> exists k :: 0 <= k < |fs| && fs[k].name == e.caller && e.callee in fs[k].calls
  {
    if |fs| > 0 {
      var init := fs[..|fs| - 1];
      var last := fs[|fs| - 1];
      EdgesFacts(init);
      EdgesFromFacts(last.name, last.calls);
      forall e ensures e in Edges(fs) <==> exists k :: 0 <= k < |fs| && fs[k].name == e.caller && e.callee in fs[k].calls {
        if e in Edges(init) {
          var k :| 0 <= k < |init| && init[k].name == e.caller && e.callee in init[k].calls;
          assert fs[k] == init[k];
        } else if e in EdgesFrom(last.name, last.calls) {
          assert fs[|fs| - 1] == last;
        }
        if exists k :: 0 <= k < |fs| && fs[k].name == e.caller && e.callee in fs[k].calls {
          var k :| 0 <= k < |fs| && fs[k].name == e.caller && e.callee in fs[k].calls;
          if k < |init| {
            assert init[k] == fs[k];
          }
        }
      }
    }
  }

  /** Each name holds the entry of its last record. */
  lemma {:induction false} CollectedLatest(fs: seq<FunctionInfo>, n: string)
    requires n in Collected(fs)
    ensures exists k :: 0 <= k < |fs| && fs[k].name == n && Collected(fs)[n] == FreshEntry(fs[k])
                        && forall j :: k < j < |fs| ==> fs[j].name != n
  {
    var init := fs[..|fs| - 1];
    if fs[|fs| - 1].name != n {
      CollectedLatest(init, n);
      var k :| 0 <= k < |init| && init[k].name == n && Collected(init)[n] == FreshEntry(init[k])
               && forall j :: k < j < |init| ==> init[j].name != n;
      assert fs[k] == init[k];
      forall j | k < j < |fs| ensures fs[j].name != n {
        if j < |init| {
          assert fs[j] == init[j];
        }
      }
    }
  }

  lemma NodesFromNames(info: map<string, Entry>, names: seq<string>)
    requires forall n :: n in names ==> n in info
    ensures NodeNames(NodesFrom(info, names)) == names
  {
  }

  /** A node of the ranking is one of the unsorted nodes. */
  lemma RankedNode(fs: seq<FunctionInfo>, x: Node) returns (i: nat)
    requires x in ReportOf(fs).nodes
    ensures i < |Keys(fs)| && x == NodesOf(fs)[i]
  {
    var nodes := NodesOf(fs);
    SortFacts(nodes);
    assert x in multiset(SortByScore(nodes));
    assert x in nodes;
    i :| 0 <= i < |nodes| && nodes[i] == x;
  }

  /** The nodes' complexities, in key order, are those of the distinct names. */
  lemma NodeComplexities(fs: seq<FunctionInfo>)
    ensures ComplexitiesOf(NodesOf(fs)) == KeyComplexities(fs)
  {
    var ns := NodesOf(fs);
    KeysInLinked(fs);
    forall i | 0 <= i < |ns| ensures ns[i].complexity == KeyComplexities(fs)[i] {
      assert ns[i].name == Keys(fs)[i];
      NodeEntry(fs, ns[i], i);
    }
  }

  /** The statistics' complexity sum and count range over the distinct names. */
  lemma StatisticsAverage(fs: seq<FunctionInfo>)
    ensures StatisticsOf(NodesOf(fs)).functionCount == |Keys(fs)|
    ensures StatisticsOf(NodesOf(fs)).complexitySum == SumOf(KeyComplexities(fs))
  {
    NodeComplexities(fs);
  }

  /** Every node of the report carries the calls and complexity of the last record of its name. */
  lemma NodeOrigin(fs: seq<FunctionInfo>, x: Node)
    requires x in ReportOf(fs).nodes
    ensures exists k :: 0 <= k < |fs| && fs[k].name == x.name && (forall j :: k < j < |fs| ==> fs[j].name != x.name)
                        && x.calls == fs[k].calls && x.complexity == fs[k].complexity
  {
    var i := RankedNode(fs, x);
    NodeEntry(fs, x, i);
  }

  /**
   * Every node of the report lists as callers the callers of every edge into it, and its score
   * and group are computed from its own fields.
   */
  lemma NodeFields(fs: seq<FunctionInfo>, x: Node)
    requires x in ReportOf(fs).nodes
    ensures x.calledBy == Callers(Edges(fs), x.name)
    ensures x.score == Score(|x.calledBy|, |x.calls|, x.complexity)
    ensures x.group == GroupOf(x.name)
  {
    var i := RankedNode(fs, x);
    NodeEntry(fs, x, i);
  }

  lemma NodeEntry(fs: seq<FunctionInfo>, x: Node, i: nat)
    requires i < |Keys(fs)| && x == NodesOf(fs)[i]
    ensures x.name in Collected(fs)
    ensures x == NodeOf(x.name, Collected(fs)[x.name].(calledBy := Callers(Edges(fs), x.name)))
    ensures exists k :: 0 <= k < |fs| && fs[k].name == x.name && Collected(fs)[x.name] == FreshEntry(fs[k])
                        && forall j :: k < j < |fs| ==> fs[j].name != x.name
  {
    var n := Keys(fs)[i];
    KeysFacts(fs);
    LinkedFacts(Collected(fs), Edges(fs));
    CollectedLatest(fs, n);
    assert Linked(Collected(fs), Edges(fs))[n] == Collected(fs)[n].(calledBy := [] + Callers(Edges(fs), n));
  }

  /** The ranked nodes carry exactly the distinct record names. */
  lemma RankedNames(fs: seq<FunctionInfo>)
    ensures |SortByScore(NodesOf(fs))| == |Keys(fs)|
    ensures NoDuplicates(NodeNames(SortByScore(NodesOf(fs))))
    ensures forall n :: n in NodeNames(SortByScore(NodesOf(fs))) <==> n in Keys(fs)
  {
    var nodes := NodesOf(fs);
    var keys := Keys(fs);
    KeysFacts(fs);
    KeysInLinked(fs);
    NodesFromNames(Linked(Collected(fs), Edges(fs)), keys);
    SortFacts(nodes);
    PermutedNamesDistinct(nodes, SortByScore(nodes));
    forall n ensures n in NodeNames(SortByScore(nodes)) <==> n in keys {
      PermutedNamesSame(nodes, SortByScore(nodes), n);
    }
  }

  /** The nodes are the functions: one per distinct record name, and no other. */
  lemma NodesAreFunctions(fs: seq<FunctionInfo>)
    ensures |ReportOf(fs).nodes| == ReportOf(fs).totalFunctions
    ensures NoDuplicates(NodeNames(ReportOf(fs).nodes))
    ensures forall n :: n in NodeNames(ReportOf(fs).nodes) <==> exists k :: 0 <= k < |fs| && fs[k].name == n
  {
    RankedNames(fs);
    KeysFacts(fs);
  }

  /** Reordering nodes keeps their names free of repeats. */
  lemma PermutedNamesDistinct(a: seq<Node>, b: seq<Node>)
    requires multiset(a) == multiset(b) && NoDuplicates(NodeNames(a))
    ensures NoDuplicates(NodeNames(b))
  {
    assert NoDuplicates(a) by {
      forall i, j | 0 <= i < j < |a| ensures a[i] != a[j] {
        assert NodeNames(a)[i] == a[i].name && NodeNames(a)[j] == a[j].name;
      }
    }
    PermutationNoDuplicates(a, b);
    forall i, j | 0 <= i < j < |b| ensures NodeNames(b)[i] != NodeNames(b)[j] {
      assert b[i] in multiset(a) && b[j] in multiset(a);
      var p :| 0 <= p < |a| && a[p] == b[i];
      var q :| 0 <= q < |a| && a[q] == b[j];
      assert NodeNames(a)[p] == b[i].name && NodeNames(a)[q] == b[j].name;
    }
  }

  /** Reordering nodes keeps the set of their names. */
  lemma PermutedNamesSame(a: seq<Node>, b: seq<Node>, n: string)
    requires multiset(a) == multiset(b)
    ensures n in NodeNames(b) <==> n in NodeNames(a)
  {
    if n in NodeNames(b) {
      var i :| 0 <= i < |b| && NodeNames(b)[i] == n;
      assert b[i] in multiset(a);
      var p :| 0 <= p < |a| && a[p] == b[i];
      assert NodeNames(a)[p] == n;
    }
    if n in NodeNames(a) {
      var p :| 0 <= p < |a| && NodeNames(a)[p] == n;
      assert a[p] in multiset(b);
      var i :| 0 <= i < |b| && b[i] == a[p];
      assert NodeNames(b)[i] == n;
    }
  }

  /** The edges whose callee is one of `keys`. */
  function Resolved(es: seq<Edge>, keys: seq<string>): seq<Edge> {
    if |es| == 0 then []
    else Resolved(es[..|es| - 1], keys) + (if es[|es| - 1].callee in keys then [es[|es| - 1]] else [])
  }

  /** The callers listed in all entries together. */
  function InboundTotal(keys: seq<string>, es: seq<Edge>): nat {
    if |keys| == 0 then 0 else |Callers(es, keys[0])| + InboundTotal(keys[1..], es)
  }

  lemma {:induction false} InboundSnoc(keys: seq<string>, es: seq<Edge>)
    requires |es| > 0
    ensures InboundTotal(keys, es) == InboundTotal(keys, es[..|es| - 1]) + CountIn(keys, es[|es| - 1].callee)
  {
    if |keys| > 0 {
      InboundSnoc(keys[1..], es);
    }
  }

  lemma {:induction false} InboundResolved(keys: seq<string>, es: seq<Edge>)
    requires NoDuplicates(keys)
    ensures InboundTotal(keys, es) == |Resolved(es, keys)|
  {
    if |es| == 0 {
      InboundEmpty(keys, es);
    } else {
      InboundResolved(keys, es[..|es| - 1]);
      InboundSnoc(keys, es);
      CountInNoDuplicates(keys, es[|es| - 1].callee);
    }
  }

  lemma {:induction false} InboundEmpty(keys: seq<string>, es: seq<Edge>)
    requires |es| == 0
    ensures InboundTotal(keys, es) == 0
  {
    if |keys| > 0 {
      InboundEmpty(keys[1..], es);
    }
  }

  /**
   * Linking gives exactly one inbound entry per edge into a known function: a call to a
   * name without a record adds to its caller's outbound count only.
   */
  lemma UnresolvedCallsAddNoCaller(fs: seq<FunctionInfo>)
    ensures InboundTotal(Keys(fs), Edges(fs)) == |Resolved(Edges(fs), Keys(fs))|
  {
    KeysFacts(fs);
    InboundResolved(Keys(fs), Edges(fs));
  }

  /** The ranking is descending, a permutation of the nodes, and stable. */
  lemma RankingFacts(fs: seq<FunctionInfo>, v: int)
    ensures Descending(ReportOf(fs).nodes)
    ensures multiset(ReportOf(fs).nodes) == multiset(NodesOf(fs))
    ensures WithScore(ReportOf(fs).nodes, v) == WithScore(NodesOf(fs), v)
  {
    SortFacts(NodesOf(fs));
    SortStable(NodesOf(fs), v);
  }

  /**
   * The critical names are the first `max(1, n // 10)` of the ranking: at least one when
   * there is a function, never more than `ceil(n / 10)`.
   */
  lemma CriticalFacts(fs: seq<FunctionInfo>)
    ensures var r := ReportOf(fs);
            && |r.critical| == (if |r.nodes| == 0 then 0 else CriticalCount(|r.nodes|))
            && r.critical == NodeNames(r.nodes)[..|r.critical|]
            && (|r.nodes| > 0 <==> |r.critical| > 0)
            && 10 * |r.critical| < |r.nodes| + 10
  {
  }

  /** A critical function scores at least as much as any function left out of the prefix. */
  lemma CriticalOutscores(fs: seq<FunctionInfo>, i: nat, j: nat)
    requires i < |ReportOf(fs).critical| <= j < |ReportOf(fs).nodes|
    ensures ReportOf(fs).nodes[i].score >= ReportOf(fs).nodes[j].score
  {
    SortFacts(NodesOf(fs));
    DescendingPairs(ReportOf(fs).nodes, i, j);
  }

  lemma {:induction false} NamesInGroupIff(s: seq<Node>, g: ModuleGroup, n: string)
    ensures n in NamesInGroup(s, g) <==> exists i :: 0 <= i < |s| && s[i].name == n && s[i].group == g
  {
    if |s| > 0 {
      var init := s[..|s| - 1];
      NamesInGroupIff(init, g, n);
      if exists i :: 0 <= i < |s| && s[i].name == n && s[i].group == g {
        var i :| 0 <= i < |s| && s[i].name == n && s[i].group == g;
        if i < |init| {
          assert init[i] == s[i];
        }
      }
      if exists i :: 0 <= i < |init| && init[i].name == n && init[i].group == g {
        var i :| 0 <= i < |init| && init[i].name == n && init[i].group == g;
        assert s[i] == init[i];
      }
    }
  }

  /** The grouping of a node sequence: each occurring group once, with its nodes' names. */
  lemma GroupingFacts(s: seq<Node>, g: ModuleGroup, n: string)
    ensures NoDuplicates(ModuleOrder(s))
    ensures g in ModuleOrder(s) <==> g in Grouped(s)
    ensures g in Grouped(s) <==> exists i :: 0 <= i < |s| && s[i].group == g
    ensures g in Grouped(s) ==> Grouped(s)[g] == NamesInGroup(s, g)
    ensures g in Grouped(s) ==> (n in Grouped(s)[g] <==> exists i :: 0 <= i < |s| && s[i].name == n && s[i].group == g)
  {
    DedupFacts(GroupsOf(s));
    GroupedFacts(s);
    NamesInGroupIff(s, g, n);
    if g in GroupsOf(s) {
      var i :| 0 <= i < |s| && GroupsOf(s)[i] == g;
      assert s[i].group == g;
    }
    if exists i :: 0 <= i < |s| && s[i].group == g {
      var i :| 0 <= i < |s| && s[i].group == g;
      assert GroupsOf(s)[i] == g;
    }
  }

  /**
   * `modules` partitions the ranking: its keys are the groups that occur, each once in the
   * key order, and each group lists, in ranking order, the names of its nodes.
   */
  lemma ModulesPartition(fs: seq<FunctionInfo>, g: ModuleGroup, n: string)
    ensures var r := ReportOf(fs);
            && NoDuplicates(r.moduleOrder)
            && (g in r.moduleOrder <==> g in r.modules)
            && (g in r.modules <==> exists i :: 0 <= i < |r.nodes| && r.nodes[i].group == g)
            && (g in r.modules ==> r.modules[g] == NamesInGroup(r.nodes, g))
            && (g in r.modules ==> (n in r.modules[g] <==> exists i :: 0 <= i < |r.nodes| && r.nodes[i].name == n && r.nodes[i].group == g))
  {
    GroupingFacts(ReportOf(fs).nodes, g, n);
  }

  /**
   * The statistics range over every function: the largest caller count and the largest call
   * count, both 0 when there is no function and otherwise reached by some function; and the
   * complexity sum with the function count, whose quotient is `avg_complexity`: the sum runs
   * over the distinct names, each counted with the complexity of its last record.
   */
  lemma StatisticsFacts(fs: seq<FunctionInfo>)
    ensures var st := ReportOf(fs).statistics;
            var ns := NodesOf(fs);
            && st.functionCount == ReportOf(fs).totalFunctions
            && (forall i :: 0 <= i < |ns| ==> |ns[i].calledBy| <= st.maxCallsIn && |ns[i].calls| <= st.maxCallsOut)
            && (|ns| == 0 ==> st.maxCallsIn == 0 && st.maxCallsOut == 0 && st.complexitySum == 0)
            && (|ns| > 0 ==> exists i :: 0 <= i < |ns| && |ns[i].calledBy| == st.maxCallsIn)
            && (|ns| > 0 ==> exists i :: 0 <= i < |ns| && |ns[i].calls| == st.maxCallsOut)
            && st.functionCount == |Keys(fs)|
            && st.complexitySum == SumOf(KeyComplexities(fs))
  {
    var ns := NodesOf(fs);
    assert ReportOf(fs).statistics == StatisticsOf(ns);
    StatisticsAverage(fs);
    MaxOfFacts(CallsIn(ns));
    MaxOfFacts(CallsOut(ns));
  }
}
