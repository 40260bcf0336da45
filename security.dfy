/**
 * `security_audit_tool` (src/tools/mcp_tools.py): every line of the content is tried against
 * six rules in table order, each hit becomes a finding, the findings are counted by severity
 * and by category, and the severity counts give a score and a risk tier.
 *
 * The rules' regular expressions are not modelled: `matches(r, line)` says whether rule `r`
 * (0-based, in table order) finds something in `line`.
 */
module Security {
  import opened Text

  datatype Severity = High | Medium | Low
  datatype Category = BufferOverflow | MemoryLeak | CommandInjection | SensitiveData | ArrayIndex | WeakRandom

  /** A rule of the table without its pattern and its advice texts. */
  datatype Rule = Rule(severity: Severity, category: Category)

  /** The rule table, in the order the scan tries it. */
  const Rules: seq<Rule> := [
    Rule(High, BufferOverflow),     // strcpy, strcat, sprintf, gets
    Rule(Medium, MemoryLeak),       // malloc(...) with no free before the next ';' of the line
    Rule(High, CommandInjection),   // system(
    Rule(Medium, SensitiveData),    // password, passwd, pwd
    Rule(Medium, ArrayIndex),       // [index] = without sizeof
    Rule(Low, WeakRandom)           // rand()
  ]

  /** Position of a category's rule in the table; the categories are all different. */
  function RuleIndex(c: Category): (r: nat)
    ensures r < |Rules| && Rules[r].category == c
    ensures forall q :: 0 <= q < |Rules| && Rules[q].category == c ==> q == r
  {
    match c
    case BufferOverflow => 0
    case MemoryLeak => 1
    case CommandInjection => 2
    case SensitiveData => 3
    case ArrayIndex => 4
    case WeakRandom => 5
  }

  /** Whether rule `r` finds something in a line. */
  type Matcher = (nat, string) -> bool

  /** A finding: 1-based line number, the stripped line, and the rule's labels. */
  datatype Issue = Issue(lineNumber: nat, content: string, severity: Severity, category: Category)

  function IssueAt(n: nat, line: string, r: nat): Issue
    requires r < |Rules|
  {
    Issue(n, Strip(line), Rules[r].severity, Rules[r].category)
  }

  /** The findings of the first `r` rules on line number `n`. */
  function RuleHits(n: nat, line: string, matches: Matcher, r: nat): seq<Issue>
    requires r <= |Rules|
  {
    if r == 0 then []
    else RuleHits(n, line, matches, r - 1) + (if matches(r - 1, line) then [IssueAt(n, line, r - 1)] else [])
  }

  /** All findings over the given lines, line by line and rule by rule. */
  function Findings(lines: seq<string>, matches: Matcher): seq<Issue> {
    if |lines| == 0 then []
    else Findings(lines[..|lines| - 1], matches) + RuleHits(|lines|, lines[|lines| - 1], matches, |Rules|)
  }

  /** The nested scan: lines outside, rules inside. */
  method ScanLines(lines: seq<string>, matches: Matcher) returns (issues: seq<Issue>)
    ensures issues == Findings(lines, matches)
  {
    issues := [];
    for i := 0 to |lines|
      invariant issues == Findings(lines[..i], matches)
    {
      assert lines[..i + 1][..i] == lines[..i];
      var line := lines[i];
      ghost var before := issues;
      for r := 0 to |Rules|
        invariant issues == before + RuleHits(i + 1, line, matches, r)
      {
        if matches(r, line) {
          var issue := Issue(i + 1, Strip(line), Rules[r].severity, Rules[r].category);
          assert issue == IssueAt(i + 1, line, r);
          issues := issues + [issue];
        }
      }
    }
    assert lines[..|lines|] == lines;
  }

  // ---------------------------------------------------------------------------
  // What a finding is, and the order findings come in

  /** `a` comes before `b` in scan order: an earlier line, or the same line and an earlier rule. */
  predicate Precedes(a: Issue, b: Issue) {
    a.lineNumber < b.lineNumber
    || (a.lineNumber == b.lineNumber && RuleIndex(a.category) < RuleIndex(b.category))
  }

  predicate InScanOrder(s: seq<Issue>) {
    forall i, j :: 0 <= i < j < |s| ==> Precedes(s[i], s[j])
  }

  /** Rule `r` flags line number `n` of `lines`, and `x` is the finding it makes. */
  predicate Flags(lines: seq<string>, matches: Matcher, x: Issue, r: nat) {
    1 <= x.lineNumber <= |lines| && r < |Rules|
    && matches(r, lines[x.lineNumber - 1]) && x == IssueAt(x.lineNumber, lines[x.lineNumber - 1], r)
  }

  lemma InScanOrderAppend(a: seq<Issue>, b: seq<Issue>)
    requires InScanOrder(a) && InScanOrder(b)
    requires forall x, y :: x in a && y in b ==> Precedes(x, y)
    ensures InScanOrder(a + b)
  {
    forall i, j | 0 <= i < j < |a + b| ensures Precedes((a + b)[i], (a + b)[j]) {
      if j < |a| {
        assert (a + b)[i] == a[i] && (a + b)[j] == a[j];
      } else if i >= |a| {
        assert (a + b)[i] == b[i - |a|] && (a + b)[j] == b[j - |a|];
      } else {
        assert (a + b)[i] == a[i] && (a + b)[j] == b[j - |a|];
      }
    }
  }

  /** One line's findings: that line's number, the hit rules' labels, rule order. */
  lemma {:induction false} RuleHitsFacts(n: nat, line: string, matches: Matcher, r: nat)
    requires r <= |Rules|
    ensures InScanOrder(RuleHits(n, line, matches, r))
    ensures forall x :: x in RuleHits(n, line, matches, r) <==>
      exists q: nat :: q < r && matches(q, line) && x == IssueAt(n, line, q)
  {
    if r > 0 {
      RuleHitsFacts(n, line, matches, r - 1);
      var prev := RuleHits(n, line, matches, r - 1);
      var last: seq<Issue> := if matches(r - 1, line) then [IssueAt(n, line, r - 1)] else [];
      forall x, y | x in prev && y in last ensures Precedes(x, y) {
        var q: nat :| q < r - 1 && matches(q, line) && x == IssueAt(n, line, q);
        assert RuleIndex(x.category) == q;
      }
      InScanOrderAppend(prev, last);
    }
  }

  /**
   * A finding is exactly a rule hit on a line, with that line's 1-based number and the line
   * stripped, and the findings come ordered by line and then by rule.
   */
  lemma {:induction false} FindingsFacts(lines: seq<string>, matches: Matcher)
    ensures InScanOrder(Findings(lines, matches))
    ensures forall x :: x in Findings(lines, matches) <==> exists r: nat :: Flags(lines, matches, x, r)
  {
    if |lines| > 0 {
      var init := lines[..|lines| - 1];
      var n := |lines|;
      FindingsFacts(init, matches);
      RuleHitsFacts(n, lines[n - 1], matches, |Rules|);
      var prev := Findings(init, matches);
      var last := RuleHits(n, lines[n - 1], matches, |Rules|);
      forall x, y | x in prev && y in last ensures Precedes(x, y) {
        var r: nat :| Flags(init, matches, x, r);
        var q: nat :| q < |Rules| && matches(q, lines[n - 1]) && y == IssueAt(n, lines[n - 1], q);
      }
      InScanOrderAppend(prev, last);
      forall x ensures x in Findings(lines, matches) <==> exists r: nat :: Flags(lines, matches, x, r) {
        if x in prev {
          var r: nat :| Flags(init, matches, x, r);
          assert lines[x.lineNumber - 1] == init[x.lineNumber - 1];
          assert Flags(lines, matches, x, r);
        } else if x in last {
          var q: nat :| q < |Rules| && matches(q, lines[n - 1]) && x == IssueAt(n, lines[n - 1], q);
          assert Flags(lines, matches, x, q);
        }
        if r: nat :| Flags(lines, matches, x, r) {
          if x.lineNumber < n {
            assert lines[x.lineNumber - 1] == init[x.lineNumber - 1];
            assert Flags(init, matches, x, r);
          } else {
            assert x in last;
          }
        }
      }
    }
  }

  // ---------------------------------------------------------------------------
  // Counting

  /** A `defaultdict(int)` of counts as a plain dict: its keys in insertion order and its values. */
  datatype Tally<K> = Tally(keys: seq<K>, counts: map<K, nat>)

  function Severities(issues: seq<Issue>): seq<Severity> {
    seq(|issues|, i requires 0 <= i < |issues| => issues[i].severity)
  }

  function Categories(issues: seq<Issue>): seq<Category> {
    seq(|issues|, i requires 0 <= i < |issues| => issues[i].category)
  }

  /** `counter[x] += 1` on a `defaultdict(int)`: a missing key starts at 0 and goes to the end. */
  function Bump<K(==)>(t: Tally<K>, x: K): Tally<K> {
    if x in t.counts then Tally(t.keys, t.counts[x := t.counts[x] + 1])
    else Tally(t.keys + [x], t.counts[x := 1])
  }

  /** The `defaultdict(int)` after `counter[x] += 1` for each `x` of `xs` in turn. */
  function TallyOf<K(==)>(xs: seq<K>): Tally<K> {
    if |xs| == 0 then Tally([], map[]) else Bump(TallyOf(xs[..|xs| - 1]), xs[|xs| - 1])
  }

  lemma TallySnoc<K>(xs: seq<K>, k: nat)
    requires k < |xs|
    ensures TallyOf(xs[..k + 1]) == Bump(TallyOf(xs[..k]), xs[k])
  {
    assert xs[..k + 1][..k] == xs[..k];
  }

  /** The counting loop over the findings, both `defaultdict`s at once. */
  method CountIssues(issues: seq<Issue>) returns (bySeverity: Tally<Severity>, byCategory: Tally<Category>)
    ensures bySeverity == TallyOf(Severities(issues))
    ensures byCategory == TallyOf(Categories(issues))
  {
    ghost var sevs, cats := Severities(issues), Categories(issues);
    bySeverity, byCategory := Tally([], map[]), Tally([], map[]);
    for k := 0 to |issues|
      invariant bySeverity == TallyOf(sevs[..k])
      invariant byCategory == TallyOf(cats[..k])
    {
      TallySnoc(sevs, k);
      TallySnoc(cats, k);
      bySeverity := Bump(bySeverity, issues[k].severity);
      byCategory := Bump(byCategory, issues[k].category);
    }
    assert sevs[..|issues|] == sevs && cats[..|issues|] == cats;
  }

  /** The keys listed once each, and exactly the keys of the counts. */
  ghost predicate WellKeyed<K(!new)>(t: Tally<K>) {
    NoDuplicates(t.keys) && forall x :: x in t.counts <==> x in t.keys
  }

  /**
   * A tally lists the distinct values of `xs` in order of first occurrence, as `Dedup` does,
   * and counts how often each occurs.
   */
  lemma {:induction false} TallyFacts<K(!new)>(xs: seq<K>)
    ensures TallyOf(xs).keys == Dedup(xs)
    ensures WellKeyed(TallyOf(xs))
    ensures forall x :: x in TallyOf(xs).keys <==> x in xs
    ensures forall x :: x in TallyOf(xs).counts ==> TallyOf(xs).counts[x] == multiset(xs)[x] > 0
  {
    DedupFacts(xs);
    if |xs| > 0 {
      var init, x := xs[..|xs| - 1], xs[|xs| - 1];
      TallyFacts(init);
      assert xs == init + [x];
      assert multiset(xs) == multiset(init) + multiset{x};
      var t := TallyOf(init);
      assert x in t.counts <==> x in Dedup(init);
    }
  }

  /** `counter[x]` read on a `defaultdict(int)`: a missing key is inserted with 0. */
  function Touch<K(==)>(t: Tally<K>, x: K): Tally<K> {
    if x in t.counts then t else Tally(t.keys + [x], t.counts[x := 0])
  }

  /** A read keeps the old keys in front and every old count, and keys the read value at 0. */
  lemma TouchCounts<K>(t: Tally<K>, x: K)
    ensures x in Touch(t, x).counts
    ensures t.keys <= Touch(t, x).keys
    ensures forall y :: y in t.counts ==> Touch(t, x).counts[y] == t.counts[y]
    ensures x !in t.counts ==> Touch(t, x).counts[x] == 0
  {
  }

  /** A read of a well-keyed tally keeps it well keyed, keeps every old count and keys a
      missing value at 0. */
  lemma TouchFacts<K(!new)>(t: Tally<K>, x: K)
    requires WellKeyed(t)
    ensures WellKeyed(Touch(t, x))
    ensures Touch(t, x).counts.Keys == t.counts.Keys + {x}
    ensures forall y :: y in t.counts ==> Touch(t, x).counts[y] == t.counts[y]
    ensures x !in t.counts ==> Touch(t, x).counts[x] == 0
  {
    if x !in t.counts {
      var ks := t.keys + [x];
      forall i, j | 0 <= i < j < |ks| ensures ks[i] != ks[j] {
        if j == |t.keys| {
          assert ks[i] == t.keys[i];
        }
      }
    }
  }

  /** The weights are read high, medium, low, so all three keys end up in the distribution. */
  function SeverityDistribution(issues: seq<Issue>): Tally<Severity> {
    ReadWeights(TallyOf(Severities(issues)))
  }

  /** The count of one severity, zero when absent. */
  function CountOf(issues: seq<Issue>, s: Severity): nat {
    multiset(Severities(issues))[s]
  }

  lemma SeveritiesSnoc(issues: seq<Issue>)
    requires |issues| > 0
    ensures Severities(issues) == Severities(issues[..|issues| - 1]) + [issues[|issues| - 1].severity]
  {
    var init := issues[..|issues| - 1];
    assert forall i | 0 <= i < |init| :: Severities(issues)[i] == Severities(init)[i];
  }

  lemma {:induction false} SeveritiesCover(issues: seq<Issue>)
    ensures CountOf(issues, High) + CountOf(issues, Medium) + CountOf(issues, Low) == |issues|
  {
    if |issues| > 0 {
      var init := issues[..|issues| - 1];
      var x := issues[|issues| - 1].severity;
      SeveritiesCover(init);
      SeveritiesSnoc(issues);
      var m0, m := multiset(Severities(init)), multiset(Severities(issues));
      assert m == m0 + multiset{x};
      assert m[High] == m0[High] + (if x == High then 1 else 0);
      assert m[Medium] == m0[Medium] + (if x == Medium then 1 else 0);
      assert m[Low] == m0[Low] + (if x == Low then 1 else 0);
      EverySeverity(x);
    }
  }

  lemma EverySeverity(s: Severity)
    ensures s in {High, Medium, Low}
  {
  }

  /** The three reads of `severity_count` that weight the score: high, medium, low. */
  function ReadWeights(t: Tally<Severity>): Tally<Severity> {
    Touch(Touch(Touch(t, High), Medium), Low)
  }

  lemma ReadWeightsKeys(t: Tally<Severity>)
    requires WellKeyed(t)
    ensures WellKeyed(ReadWeights(t)) && ReadWeights(t).counts.Keys == t.counts.Keys + {High, Medium, Low}
  {
    var t1 := Touch(t, High);
    var t2 := Touch(t1, Medium);
    TouchFacts(t, High);
    TouchFacts(t1, Medium);
    TouchFacts(t2, Low);
  }

  lemma ReadWeightsCounts(t: Tally<Severity>)
    ensures t.keys <= ReadWeights(t).keys
    ensures forall s :: s in ReadWeights(t).counts && ReadWeights(t).counts[s] == if s in t.counts then t.counts[s] else 0
  {
    var t1 := Touch(t, High);
    var t2 := Touch(t1, Medium);
    var r := Touch(t2, Low);
    TouchCounts(t, High);
    TouchCounts(t1, Medium);
    TouchCounts(t2, Low);
    forall s ensures s in r.counts && r.counts[s] == if s in t.counts then t.counts[s] else 0 {
      EverySeverity(s);
    }
  }

  /** Reading the three weights leaves every severity keyed, the old counts as they were. */
  lemma ReadWeightsFacts(t: Tally<Severity>)
    requires WellKeyed(t)
    ensures WellKeyed(ReadWeights(t)) && ReadWeights(t).counts.Keys == {High, Medium, Low}
    ensures t.keys <= ReadWeights(t).keys
    ensures forall s :: s in ReadWeights(t).counts && ReadWeights(t).counts[s] == if s in t.counts then t.counts[s] else 0
  {
    ReadWeightsKeys(t);
    ReadWeightsCounts(t);
    forall s | s in ReadWeights(t).counts.Keys ensures s in {High, Medium, Low} {
      EverySeverity(s);
    }
  }

  /**
   * The severity distribution has exactly the three severities as keys, each listed once,
   * those that occur first and in order of first occurrence; each value is the number of
   * findings of that severity, and the values add up to the number of findings.
   */
  lemma SeverityDistributionFacts(issues: seq<Issue>)
    ensures WellKeyed(SeverityDistribution(issues))
    ensures SeverityDistribution(issues).counts.Keys == {High, Medium, Low}
    ensures Dedup(Severities(issues)) <= SeverityDistribution(issues).keys
    ensures forall s :: s in SeverityDistribution(issues).counts && SeverityDistribution(issues).counts[s] == CountOf(issues, s)
    ensures SeverityDistribution(issues).counts[High] + SeverityDistribution(issues).counts[Medium]
      + SeverityDistribution(issues).counts[Low] == |issues|
  {
    var sevs := Severities(issues);
    TallyFacts(sevs);
    var t0 := TallyOf(sevs);
    ReadWeightsFacts(t0);
    var t := SeverityDistribution(issues);
    forall s ensures s in t.counts && t.counts[s] == CountOf(issues, s) {
      EverySeverity(s);
      if s !in t0.counts {
        assert s !in sevs;
      }
    }
    SeveritiesCover(issues);
  }

  /** The category distribution counts the categories that occur, keyed in first-occurrence order. */
  lemma CategoryDistributionFacts(issues: seq<Issue>)
    ensures NoDuplicates(TallyOf(Categories(issues)).keys)
    ensures forall c :: c in TallyOf(Categories(issues)).keys <==> exists x :: x in issues && x.category == c
    ensures forall c :: c in TallyOf(Categories(issues)).counts <==> c in TallyOf(Categories(issues)).keys
    ensures forall c :: c in TallyOf(Categories(issues)).counts ==>
      TallyOf(Categories(issues)).counts[c] == multiset(Categories(issues))[c] > 0
  {
    var cats := Categories(issues);
    TallyFacts(cats);
    forall c ensures c in cats <==> exists x :: x in issues && x.category == c {
      if c in cats {
        var i :| 0 <= i < |cats| && cats[i] == c;
        assert issues[i] in issues;
      }
      if x :| x in issues && x.category == c {
        var i :| 0 <= i < |issues| && issues[i] == x;
        assert cats[i] == c;
      }
    }
  }

  // ---------------------------------------------------------------------------
  // Score and risk

  /** `max(0, 100 - 2 * (3h + 2m + l))`. */
  function Score(high: nat, medium: nat, low: nat): (s: int)
    ensures 0 <= s <= 100
    ensures s == 100 <==> high == 0 && medium == 0 && low == 0
    ensures s == 0 <==> 3 * high + 2 * medium + low >= 50
  {
    var weight := 3 * high + 2 * medium + low;
    if 100 - 2 * weight < 0 then 0 else 100 - 2 * weight
  }

  lemma ScoreBounds(high: nat, medium: nat, low: nat)
    ensures 0 <= Score(high, medium, low) <= 100
    ensures Score(high, medium, low) == 100 <==> high == medium == low == 0
    ensures Score(high, medium, low) % 2 == 0
  {
  }

  /** One more finding of any severity never raises the score. */
  lemma ScoreMonotone(h: nat, m: nat, l: nat, h': nat, m': nat, l': nat)
    requires h <= h' && m <= m' && l <= l'
    ensures Score(h', m', l') <= Score(h, m, l)
    ensures (h < h' || m < m' || l < l') && Score(h, m, l) > 0 ==> Score(h', m', l') < Score(h, m, l)
  {
  }

  datatype Risk = HighRisk | MediumRisk | LowRisk

  function RiskOf(score: int): (r: Risk)
    ensures r == HighRisk <==> score < 60
    ensures r == LowRisk <==> score >= 80
  {
    if score < 60 then HighRisk else if score < 80 then MediumRisk else LowRisk
  }

  /** 0 for low, 2 for high risk. */
  function RiskLevel(r: Risk): nat {
    match r
    case LowRisk => 0
    case MediumRisk => 1
    case HighRisk => 2
  }

  /** A lower score never gives a lower tier; the tier boundaries are 60 and 80. */
  lemma RiskMonotone(s: int, t: int)
    requires s <= t
    ensures RiskLevel(RiskOf(s)) >= RiskLevel(RiskOf(t))
    ensures RiskOf(s) == LowRisk ==> 80 <= s
    ensures RiskOf(t) == HighRisk ==> t < 60
  {
  }

  /** Clean content is low risk; seven high-severity findings are already high risk. */
  lemma RiskExamples(h: nat, m: nat, l: nat)
    ensures RiskOf(Score(0, 0, 0)) == LowRisk
    ensures h >= 7 ==> RiskOf(Score(h, m, l)) == HighRisk
    ensures h == 0 && l == 0 && m <= 5 ==> RiskOf(Score(h, m, l)) == LowRisk
  {
  }

  // ---------------------------------------------------------------------------
  // The whole audit

  /** The `critical_issues` list: every high-severity issue, in scan order and not truncated
      (`[issue for issue in security_issues if issue["severity"] == "高"]`). */
  function CriticalIssues(issues: seq<Issue>): seq<Issue> {
    if |issues| == 0 then []
    else
      var last := issues[|issues| - 1];
      CriticalIssues(issues[..|issues| - 1]) + (if last.severity == High then [last] else [])
  }

  lemma {:induction false} CriticalIssuesFacts(issues: seq<Issue>)
    ensures forall x :: x in CriticalIssues(issues) <==> x in issues && x.severity == High
    ensures |CriticalIssues(issues)| == CountOf(issues, High)
  {
    if |issues| > 0 {
      var init := issues[..|issues| - 1];
      CriticalIssuesFacts(init);
      assert issues == init + [issues[|issues| - 1]];
      assert Severities(issues) == Severities(init) + [issues[|issues| - 1].severity];
    }
  }

  method CollectCritical(issues: seq<Issue>) returns (critical: seq<Issue>)
    ensures critical == CriticalIssues(issues)
  {
    critical := [];
    for k := 0 to |issues|
      invariant critical == CriticalIssues(issues[..k])
    {
      assert issues[..k + 1][..k] == issues[..k];
      if issues[k].severity == High {
        critical := critical + [issues[k]];
      }
    }
    assert issues[..|issues|] == issues;
  }

  /** The result keys the audit fills, without the advice texts. */
  datatype Audit = Audit(
    securityIssues: seq<Issue>,
    totalIssues: nat,
    severityDistribution: Tally<Severity>,
    categoryDistribution: Tally<Category>,
    securityScore: int,
    overallRisk: Risk,
    criticalIssues: seq<Issue>)

  const MaxListed: nat := 50

  function AuditOf(content: string, matches: Matcher): Audit {
    var issues := Findings(Split(content), matches);
    var score := Score(CountOf(issues, High), CountOf(issues, Medium), CountOf(issues, Low));
    Audit(PyPrefix(issues, MaxListed), |issues|, SeverityDistribution(issues),
      TallyOf(Categories(issues)), score, RiskOf(score), CriticalIssues(issues))
  }

  method SecurityAudit(content: string, matches: Matcher) returns (r: Audit)
    ensures r == AuditOf(content, matches)
  {
    var lines := Split(content);
    var issues := ScanLines(lines, matches);
    var bySeverity, byCategory := CountIssues(issues);
    bySeverity := ReadWeights(bySeverity);
    SeverityDistributionFacts(issues);
    var score := Score(bySeverity.counts[High], bySeverity.counts[Medium], bySeverity.counts[Low]);
    var critical := CollectCritical(issues);
    r := Audit(PyPrefix(issues, MaxListed), |issues|, bySeverity, byCategory, score, RiskOf(score), critical);
  }

  /**
   * At most 50 findings are listed, the first ones; the total and both distributions count
   * every finding; the score comes from the severity counts and stays in [0, 100].
   */
  lemma AuditFacts(content: string, matches: Matcher)
    ensures var a := AuditOf(content, matches);
      var issues := Findings(Split(content), matches);
      && |a.securityIssues| == (if a.totalIssues < MaxListed then a.totalIssues else MaxListed)
      && a.securityIssues == issues[..|a.securityIssues|]
      && a.totalIssues == |issues|
      && a.severityDistribution.counts[High] + a.severityDistribution.counts[Medium]
         + a.severityDistribution.counts[Low] == a.totalIssues
      && 0 <= a.securityScore <= 100
      && (a.securityScore == 100 <==> a.totalIssues == 0)
      && |a.criticalIssues| == a.severityDistribution.counts[High]
  {
    var issues := Findings(Split(content), matches);
    SeverityDistributionFacts(issues);
    SeveritiesCover(issues);
    CriticalIssuesFacts(issues);
  }
}
