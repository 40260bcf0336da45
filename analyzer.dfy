/**
 * The function extractor of `CodeAnalyzer` (src/core/analyzer.py): a line scanner that finds
 * signature lines followed by a line holding only `{`, counts braces character by character
 * until the depth returns to zero, and emits one `FunctionInfo` record per closed body;
 * together with its call-name extractor and its textual complexity score.
 *
 * Each method follows the loops of the Python code and is proved equal to a specification
 * function; the lemmas below state what those functions promise.
 */
module Analyzer {
  import opened Text
  import opened Lexer
  import opened Signature

  /** The record `extract_functions` emits (src/models/data_models.py). */
  datatype FunctionInfo = FunctionInfo(
    name: string,
    signature: string,
    startLine: int,
    endLine: int,
    code: string,
    calls: seq<string>,
    complexity: int)

  // ---------------------------------------------------------------------------
  // Call names

  /** The identifiers `_extract_function_calls` never reports. */
  const ExcludedCalls: set<string> := {"if", "while", "for", "switch", "sizeof", "return", "printf"}

  predicate KeepCall(w: string) {
    w !in ExcludedCalls && !IsAllDigits(w) && |w| > 1
  }

  /** The matches that pass the filter, in match order. */
  function KeptCalls(ms: seq<string>): (r: seq<string>)
    ensures |r| <= |ms|
  {
    if |ms| == 0 then []
    else
      var r := KeptCalls(ms[..|ms| - 1]);
      if KeepCall(ms[|ms| - 1]) then r + [ms[|ms| - 1]] else r
  }

  /** The filter keeps exactly the matches that pass it. */
  lemma {:induction false} KeptCallsIff(ms: seq<string>, w: string)
    ensures w in KeptCalls(ms) <==> w in ms && KeepCall(w)
  {
    if |ms| > 0 {
      var init := ms[..|ms| - 1];
      assert ms == init + [ms[|ms| - 1]];
      KeptCallsIff(init, w);
    }
  }

  /** What `_extract_function_calls` returns, each name once, in first-occurrence order. */
  function CallNames(code: string): seq<string> {
    Dedup(KeptCalls(CallWords(code)))
  }

  /** A name is reported exactly when it is a kept word followed by `(`; none twice. */
  lemma CallNamesIff(code: string, w: string)
    ensures NoDuplicates(CallNames(code))
    ensures w in CallNames(code) <==> (exists p :: CallAt(code, p, w)) && KeepCall(w)
  {
    CallWordsIff(code, w);
    KeptCallsIff(CallWords(code), w);
    DedupFacts(KeptCalls(CallWords(code)));
  }

  method ExtractFunctionCalls(code: string) returns (calls: seq<string>)
    ensures calls == CallNames(code)
    ensures NoDuplicates(calls)
    ensures forall w :: w in calls <==> (exists p :: CallAt(code, p, w)) && KeepCall(w)
  {
    var matches := CallWords(code);
    var kept: seq<string> := [];
    var k := 0;
    while k < |matches|
      invariant 0 <= k <= |matches|
      invariant kept == KeptCalls(matches[..k])
    {
      var m := matches[k];
      if KeepCall(m) {
        kept := kept + [m];
      }
      k := k + 1;
      assert matches[..k][..k - 1] == matches[..k - 1];
    }
    assert matches[..k] == matches;
    calls := Dedup(kept);
    CallNamesIff(code, "");
    forall w | true
      ensures w in calls <==> (exists p :: CallAt(code, p, w)) && KeepCall(w)
    {
      CallNamesIff(code, w);
    }
  }

  // ---------------------------------------------------------------------------
  // Complexity

  const ControlKeywords: seq<string> := ["if", "else", "while", "for", "switch", "case", "do"]

  /** Sum of the word-bounded occurrence counts of the keywords. */
  function KeywordHits(code: string, kws: seq<string>): nat {
    if |kws| == 0 then 0
    else KeywordHits(code, kws[..|kws| - 1]) + CountWord(code, kws[|kws| - 1])
  }

  /** Non-overlapping matches of `&&|\|\|` from `k` on. */
  function LogicalOpsFrom(s: string, k: nat): nat
    decreases |s| - k
  {
    if k + 2 > |s| then 0
    else if s[k..k + 2] == "&&" || s[k..k + 2] == "||" then 1 + LogicalOpsFrom(s, k + 2)
    else LogicalOpsFrom(s, k + 1)
  }

  function LogicalOps(s: string): nat {
    LogicalOpsFrom(s, 0)
  }

  /** The score `_calculate_complexity` computes. */
  function Complexity(code: string): int {
    1 + KeywordHits(code, ControlKeywords) + 2 * CountOccurrences(code, "goto") + LogicalOps(code)
  }

  method CalculateComplexity(code: string) returns (complexity: int)
    ensures complexity == Complexity(code)
    ensures complexity >= 1
  {
    complexity := 1;
    var k := 0;
    while k < |ControlKeywords|
      invariant 0 <= k <= |ControlKeywords|
      invariant complexity == 1 + KeywordHits(code, ControlKeywords[..k])
    {
      complexity := complexity + CountWord(code, ControlKeywords[k]);
      k := k + 1;
      assert ControlKeywords[..k][..k - 1] == ControlKeywords[..k - 1];
    }
    assert ControlKeywords[..k] == ControlKeywords;
    complexity := complexity + CountOccurrences(code, "goto") * 2;
    complexity := complexity + LogicalOps(code);
  }

  /** Each occurrence of a control keyword as a word adds at least one to the score. */
  lemma ComplexityCountsKeyword(code: string, kw: string)
    requires kw in ControlKeywords
    requires exists p :: WordAt(code, p, kw)
    ensures Complexity(code) > 1
  {
    WordsIff(code, kw);
    var k :| 0 <= k < |ControlKeywords| && ControlKeywords[k] == kw;
    assert CountWord(code, kw) > 0;
    KeywordHitsCounts(code, ControlKeywords, k);
  }

  lemma {:induction false} KeywordHitsCounts(code: string, kws: seq<string>, k: nat)
    requires k < |kws|
    ensures CountWord(code, kws[k]) <= KeywordHits(code, kws)
  {
    if k < |kws| - 1 {
      KeywordHitsCounts(code, kws[..|kws| - 1], k);
    }
  }

  // ---------------------------------------------------------------------------
  // Brace counting

  /** State of the brace counter after a line: the body closed on it, or the depth reached. */
  datatype LineScan = Closed | Open(depth: int)

  /**
   * The `for char in line` loop from position `k` with counter `d`: `{` adds one, `}`
   * subtracts one and ends the scan when the counter reaches 0.
   */
  function ScanFrom(s: string, k: nat, d: int): (r: LineScan)
    requires k <= |s|
    ensures d >= 1 && r.Open? ==> r.depth >= 1
    decreases |s| - k
  {
    if k == |s| then Open(d)
    else if s[k] == '{' then ScanFrom(s, k + 1, d + 1)
    else if s[k] == '}' then (if d - 1 == 0 then Closed else ScanFrom(s, k + 1, d - 1))
    else ScanFrom(s, k + 1, d)
  }

  function ScanLine(s: string, d: int): LineScan {
    ScanFrom(s, 0, d)
  }

  /**
   * The `while j` loop from line `j` with depth `d`: the 1-based number of the line on
   * which the depth returns to 0, if any.
   */
  function FindClose(lines: seq<string>, j: nat, d: int): (r: Option<nat>)
    requires j <= |lines| && d >= 1
    ensures r.Some? ==> j < r.value <= |lines|
    decreases |lines| - j
  {
    if j == |lines| then None
    else match ScanLine(lines[j], d)
      case Closed => Some(j + 1)
      case Open(d') => FindClose(lines, j + 1, d')
  }

  /**
   * Where the body opened on line `i + 1` closes.  The opening line holds only `{`, so
   * it leaves the counter at 1 (`OpeningLine`), and counting goes on from the line after.
   */
  function BodyClose(lines: seq<string>, i: nat): Option<nat>
    requires i + 1 < |lines|
  {
    FindClose(lines, i + 2, 1)
  }

  predicate NoBraces(s: string, k: nat, m: nat)
    requires k <= m <= |s|
  {
    forall t :: k <= t < m ==> s[t] != '{' && s[t] != '}'
  }

  lemma {:induction false} ScanSkips(s: string, k: nat, m: nat, d: int)
    requires k <= m <= |s| && NoBraces(s, k, m)
    ensures ScanFrom(s, k, d) == ScanFrom(s, m, d)
    decreases m - k
  {
    if k < m {
      ScanSkips(s, k + 1, m, d);
    }
  }

  /** A line without braces leaves the counter unchanged. */
  lemma ScanNoBraces(s: string, d: int)
    requires NoBraces(s, 0, |s|)
    ensures ScanLine(s, d) == Open(d)
  {
    ScanSkips(s, 0, |s|, d);
  }

  /** The line that is exactly `{` once stripped takes the counter from 0 to 1. */
  lemma OpeningLine(s: string)
    requires Strip(s) == "{"
    ensures ScanLine(s, 0) == Open(1)
  {
    StripFacts(s);
    var a, b := StripStart(s), StripEnd(s);
    assert b == a + 1 && s[a] == '{';
    ScanSkips(s, 0, a, 0);
    ScanSkips(s, b, |s|, 1);
  }

  // ---------------------------------------------------------------------------
  // The line scanner

  /** Lines `extract_functions` passes over without trying the signature patterns. */
  predicate IsSkippedLine(line: string) {
    |line| == 0 || StartsWith(line, "//") || StartsWith(line, "/*") || StartsWith(line, "#")
  }

  predicate OpensBody(lines: seq<string>, i: nat) {
    i + 1 < |lines| && Strip(lines[i + 1]) == "{"
  }

  /** The name line `i` declares: not skipped, a body opens on the next line, a pattern matches. */
  function CandidateName(lines: seq<string>, i: nat): (r: Option<string>)
    requires i < |lines|
    ensures r.Some? ==> !IsSkippedLine(Strip(lines[i])) && OpensBody(lines, i)
    ensures r.Some? ==> SignatureName(Strip(lines[i])) == r
  {
    var line := Strip(lines[i]);
    if IsSkippedLine(line) || !OpensBody(lines, i) then None else SignatureName(line)
  }

  /**
   * Where the scanner emits a record: the captured name, the 0-based index of the signature
   * line and the 1-based number of the line on which the body closes.
   */
  datatype Site = Site(name: string, index: nat, end: nat)

  /** Each known closing line lies at least two lines past the signature line. */
  predicate ClosesAfter(closes: seq<Option<nat>>) {
    forall k :: 0 <= k < |closes| && closes[k].Some? ==> k + 2 < closes[k].value <= |closes|
  }

  /**
   * The index walk of `extract_functions` from index `i`, given for every line the name it
   * declares (`names`) and the line its body closes on (`closes`): a declared name with a
   * closed body emits a site and jumps to the closing line number, anything else moves on.
   */
  function ScanSites(names: seq<Option<string>>, closes: seq<Option<nat>>, i: nat): (r: seq<Site>)
    requires |names| == |closes| && ClosesAfter(closes) && i <= |names|
    ensures forall s :: s in r ==> i <= s.index && s.index + 2 < s.end <= |names|
    decreases |names| - i
  {
    if i == |names| then []
    else if names[i].Some? && closes[i].Some? then
      [Site(names[i].value, i, closes[i].value)] + ScanSites(names, closes, closes[i].value)
    else ScanSites(names, closes, i + 1)
  }

  /** The name each line declares. */
  function NamesOf(lines: seq<string>): (r: seq<Option<string>>)
    ensures |r| == |lines|
  {
    seq(|lines|, i requires 0 <= i < |lines| => CandidateName(lines, i))
  }

  function CloseAfter(lines: seq<string>, i: nat): (r: Option<nat>)
    requires i < |lines|
    ensures r.Some? ==> i + 2 < r.value <= |lines|
  {
    if i + 1 < |lines| then BodyClose(lines, i) else None
  }

  /** The line on which the body opened after each line closes. */
  function ClosesOf(lines: seq<string>): (r: seq<Option<nat>>)
    ensures |r| == |lines| && ClosesAfter(r)
  {
    seq(|lines|, i requires 0 <= i < |lines| => CloseAfter(lines, i))
  }

  /** The walk's view of line `i`: the name it declares and the line its body closes on. */
  lemma LineView(lines: seq<string>, i: nat)
    requires i < |lines|
    ensures NamesOf(lines)[i] == CandidateName(lines, i)
    ensures ClosesOf(lines)[i] == CloseAfter(lines, i)
  {
  }

  function SitesOf(lines: seq<string>): (r: seq<Site>)
    ensures forall s :: s in r ==> s.index + 2 < s.end <= |lines|
  {
    ScanSites(NamesOf(lines), ClosesOf(lines), 0)
  }

  predicate ValidSites(lines: seq<string>, sites: seq<Site>) {
    forall s :: s in sites ==> s.index < s.end <= |lines|
  }

  /** The record for a site: signature, line numbers, code, calls and complexity. */
  function RecordOf(lines: seq<string>, s: Site): FunctionInfo
    requires s.index < s.end <= |lines|
  {
    var code := Join(lines[s.index..s.end]);
    FunctionInfo(s.name, Strip(lines[s.index]), s.index + 1, s.end, code, CallNames(code), Complexity(code))
  }

  function RecordsOf(lines: seq<string>, sites: seq<Site>): (rs: seq<FunctionInfo>)
    requires ValidSites(lines, sites)
    ensures |rs| == |sites|
  {
    if |sites| == 0 then []
    else RecordsOf(lines, sites[..|sites| - 1]) + [RecordOf(lines, sites[|sites| - 1])]
  }

  /** What `extract_functions` returns for `code`. */
  function FunctionsIn(code: string): seq<FunctionInfo> {
    var lines := Split(code);
    RecordsOf(lines, SitesOf(lines))
  }

  lemma {:induction false} RecordsOfIndex(lines: seq<string>, sites: seq<Site>, k: nat)
    requires ValidSites(lines, sites) && k < |sites|
    ensures RecordsOf(lines, sites)[k] == RecordOf(lines, sites[k])
    decreases |sites|
  {
    if k < |sites| - 1 {
      RecordsOfIndex(lines, sites[..|sites| - 1], k);
    }
  }

  // ---------------------------------------------------------------------------
  // The scanner as written

  /** The inner `for char` loop over one line, starting from counter `braceCount`. */
  method ScanChars(s: string, braceCount: int) returns (closed: bool, count: int)
    ensures closed <==> ScanLine(s, braceCount) == Closed
    ensures closed ==> count == 0
    ensures !closed ==> ScanLine(s, braceCount) == Open(count)
  {
    count := braceCount;
    var k := 0;
    closed := false;
    while k < |s|
      invariant 0 <= k <= |s|
      invariant ScanFrom(s, k, count) == ScanLine(s, braceCount)
    {
      if s[k] == '{' {
        count := count + 1;
      } else if s[k] == '}' {
        count := count - 1;
        if count == 0 {
          closed := true;
          return;
        }
      }
      k := k + 1;
    }
  }

  /**
   * The two pattern tries on a stripped line that is not skipped: the precise pattern's
   * name, else the fallback's, which is only taken when a body opens on the next line.
   */
  method MatchSignature(line: string, nextIsBrace: bool) returns (name: Option<string>)
    ensures nextIsBrace ==> name == SignatureName(line)
    ensures name.Some? ==> name == SignatureName(line)
  {
    name := PreciseMatch(line);
    if name.None? {
      var simple := SimpleMatch(line);
      if simple.Some? && nextIsBrace {
        name := simple;
      }
    }
  }

  /**
   * The `while j` loop for a signature on line `i`: the counter it stops with, and the
   * 1-based line on which the body closed when that counter is 0.
   */
  method FindBodyEnd(lines: seq<string>, i: nat) returns (braceCount: int, endLine: nat)
    requires i + 1 < |lines| && Strip(lines[i + 1]) == "{"
    ensures braceCount == 0 <==> BodyClose(lines, i).Some?
    ensures braceCount == 0 ==> BodyClose(lines, i) == Some(endLine) && i + 1 < endLine
  {
    braceCount := 0;
    endLine := 0;
    var j := i + 1;
    while j < |lines|
      invariant i + 1 <= j <= |lines|
      invariant j == i + 1 ==> braceCount == 0
      invariant j > i + 1 ==> braceCount >= 1 && FindClose(lines, j, braceCount) == BodyClose(lines, i)
    {
      var closed, count := ScanChars(lines[j], braceCount);
      if j == i + 1 {
        OpeningLine(lines[j]);
      }
      braceCount := count;
      if closed {
        endLine := j + 1;
      }
      if braceCount == 0 {
        return;
      }
      j := j + 1;
    }
  }

  /** The site the index walk finds at line `i`, if any. */
  function SiteAtLine(lines: seq<string>, i: nat): (r: Option<Site>)
    requires i < |lines|
    ensures r.Some? ==> r.value.index == i && i + 2 < r.value.end <= |lines|
  {
    var names := NamesOf(lines);
    var closes := ClosesOf(lines);
    if names[i].Some? && closes[i].Some? then Some(Site(names[i].value, i, closes[i].value)) else None
  }

  /**
   * One turn of the `while i` loop: the record emitted for line `i`, if any, and the index
   * the loop continues from.
   */
  method ExtractAt(lines: seq<string>, i: nat) returns (record: Option<FunctionInfo>, next: nat)
    requires i < |lines|
    ensures match SiteAtLine(lines, i)
            case Some(s) => record == Some(RecordOf(lines, s)) && next == s.end
            case None => record == None && next == i + 1
  {
    var line := Strip(lines[i]);
    var nextIsBrace := i + 1 < |lines| && Strip(lines[i + 1]) == "{";
    var name: Option<string> := None;
    if !IsSkippedLine(line) {
      name := MatchSignature(line, nextIsBrace);
    }
    LineView(lines, i);
    if name.Some? && nextIsBrace {
      assert NamesOf(lines)[i] == CandidateName(lines, i) == name;
      var braceCount, endLine := FindBodyEnd(lines, i);
      if braceCount == 0 {
        var funcCode := Join(lines[i..endLine]);
        var calls := ExtractFunctionCalls(funcCode);
        var complexity := CalculateComplexity(funcCode);
        record := Some(FunctionInfo(name.value, line, i + 1, endLine, funcCode, calls, complexity));
        next := endLine;
      } else {
        record := None;
        next := i + 1;
      }
    } else {
      assert CandidateName(lines, i) == None;
      record := None;
      next := i + 1;
    }
  }

  /**
   * The state of the `while i` loop over the per-line view `names`/`closes`: the sites found
   * so far followed by the sites the walk finds from line `i` on are all the sites.
   */
  predicate Walked(names: seq<Option<string>>, closes: seq<Option<nat>>, found: seq<Site>, i: nat) {
    && |names| == |closes| && ClosesAfter(closes) && i <= |names|
    && found + ScanSites(names, closes, i) == ScanSites(names, closes, 0)
    && forall s :: s in found ==> s.index < s.end <= |names|
  }

  /** A turn that emits the site at line `i` adds it to the sites found and jumps past it. */
  lemma WalkEmit(names: seq<Option<string>>, closes: seq<Option<nat>>, found: seq<Site>, i: nat)
    requires Walked(names, closes, found, i) && i < |names| && names[i].Some? && closes[i].Some?
    ensures Walked(names, closes, found + [Site(names[i].value, i, closes[i].value)], closes[i].value)
  {
    var s := Site(names[i].value, i, closes[i].value);
    var rest := ScanSites(names, closes, s.end);
    assert ScanSites(names, closes, i) == [s] + rest;
    assert found + ([s] + rest) == (found + [s]) + rest;
  }

  /** A turn that emits nothing moves on to the next line. */
  lemma WalkSkip(names: seq<Option<string>>, closes: seq<Option<nat>>, found: seq<Site>, i: nat)
    requires Walked(names, closes, found, i) && i < |names| && !(names[i].Some? && closes[i].Some?)
    ensures Walked(names, closes, found, i + 1)
  {
  }

  /** Once the walk has passed the last line, the sites found are all the sites. */
  lemma WalkDone(names: seq<Option<string>>, closes: seq<Option<nat>>, found: seq<Site>)
    requires Walked(names, closes, found, |names|)
    ensures found == ScanSites(names, closes, 0)
  {
    assert found + [] == found;
  }

  lemma RecordsSnoc(lines: seq<string>, found: seq<Site>, s: Site)
    requires ValidSites(lines, found) && s.index < s.end <= |lines|
    ensures ValidSites(lines, found + [s])
    ensures RecordsOf(lines, found + [s]) == RecordsOf(lines, found) + [RecordOf(lines, s)]
  {
    assert (found + [s])[..|found|] == found;
  }

  method ExtractFunctions(code: string) returns (functions: seq<FunctionInfo>)
    ensures functions == FunctionsIn(code)
  {
    var lines := Split(code);
    ghost var names := NamesOf(lines);
    ghost var closes := ClosesOf(lines);
    functions := [];
    ghost var found: seq<Site> := [];
    var i := 0;
    while i < |lines|
      invariant Walked(names, closes, found, i)
      invariant ValidSites(lines, found)
      invariant functions == RecordsOf(lines, found)
      decreases |lines| - i
    {
      var record, next := ExtractAt(lines, i);
      if record.Some? {
        ghost var s := SiteAtLine(lines, i).value;
        WalkEmit(names, closes, found, i);
        RecordsSnoc(lines, found, s);
        functions := functions + [record.value];
        found := found + [s];
      } else {
        WalkSkip(names, closes, found, i);
      }
      i := next;
    }
    WalkDone(names, closes, found);
  }

  // ---------------------------------------------------------------------------
  // The index walk

  lemma {:induction false} ScanSitesFacts(names: seq<Option<string>>, closes: seq<Option<nat>>, i: nat)
    requires |names| == |closes| && ClosesAfter(closes) && i <= |names|
    ensures forall s :: s in ScanSites(names, closes, i) ==>
              names[s.index] == Some(s.name) && closes[s.index] == Some(s.end)
    decreases |names| - i
  {
    if i < |names| {
      if names[i].Some? && closes[i].Some? {
        ScanSitesFacts(names, closes, closes[i].value);
      } else {
        ScanSitesFacts(names, closes, i + 1);
      }
    }
  }

  /** Sites come in source order and a site's body ends before the next signature line. */
  lemma {:induction false} ScanSitesOrdered(names: seq<Option<string>>, closes: seq<Option<nat>>, i: nat, a: nat, b: nat)
    requires |names| == |closes| && ClosesAfter(closes) && i <= |names|
    requires a < b < |ScanSites(names, closes, i)|
    ensures ScanSites(names, closes, i)[a].end <= ScanSites(names, closes, i)[b].index
    decreases |names| - i
  {
    var ss := ScanSites(names, closes, i);
    if names[i].Some? && closes[i].Some? {
      var e := closes[i].value;
      var rest := ScanSites(names, closes, e);
      assert ss == [ss[0]] + rest;
      assert ss[b] == rest[b - 1];
      if a == 0 {
        assert ss[b] in rest;
      } else {
        assert ss[a] == rest[a - 1];
        ScanSitesOrdered(names, closes, e, a - 1, b - 1);
      }
    } else {
      ScanSitesOrdered(names, closes, i + 1, a, b);
    }
  }

  /** Line `idx` lies within a site's lines but is not its signature line. */
  predicate Inside(s: Site, idx: int) {
    s.index < idx < s.end
  }

  /**
   * Every line with a declared name and a closed body gives a site, unless it lies within
   * the lines of an earlier site.
   */
  lemma {:induction false} ScanSitesComplete(names: seq<Option<string>>, closes: seq<Option<nat>>, i: nat, idx: nat)
    requires |names| == |closes| && ClosesAfter(closes) && i <= idx < |names|
    requires names[idx].Some? && closes[idx].Some?
    requires forall s :: s in ScanSites(names, closes, i) ==> !Inside(s, idx)
    ensures exists s :: s in ScanSites(names, closes, i) && s.index == idx
    decreases |names| - i
  {
    var ss := ScanSites(names, closes, i);
    if i == idx {
      assert ss[0] in ss;
    } else if names[i].Some? && closes[i].Some? {
      var e := closes[i].value;
      assert ss[0] in ss && ss[0].index == i && ss[0].end == e;
      assert e <= idx;
      ScanSitesComplete(names, closes, e, idx);
      var s :| s in ScanSites(names, closes, e) && s.index == idx;
      assert s in ss;
    } else {
      ScanSitesComplete(names, closes, i + 1, idx);
    }
  }

  // ---------------------------------------------------------------------------
  // What every record satisfies

  /** `r` is the record for the signature on line `idx` (0-based). */
  predicate RecordAt(lines: seq<string>, idx: int, r: FunctionInfo) {
    && 0 <= idx && idx + 1 < |lines|
    && r.startLine == idx + 1
    && r.signature == Strip(lines[idx])
    && !IsSkippedLine(r.signature)
    && Strip(lines[idx + 1]) == "{"
    && CandidateName(lines, idx) == Some(r.name)
    && BodyClose(lines, idx) == Some(r.endLine)
    && r.startLine + 2 <= r.endLine <= |lines|
    && r.code == Join(lines[idx..r.endLine])
    && r.calls == CallNames(r.code)
    && r.complexity == Complexity(r.code)
  }

  /** The `k`-th record comes from the `k`-th site. */
  lemma SiteOfRecord(code: string, k: nat)
    requires k < |FunctionsIn(code)|
    ensures var lines := Split(code);
            var s := SitesOf(lines)[k];
            && FunctionsIn(code)[k] == RecordOf(lines, s)
            && NamesOf(lines)[s.index] == Some(s.name) && ClosesOf(lines)[s.index] == Some(s.end)
  {
    var lines := Split(code);
    ScanSitesFacts(NamesOf(lines), ClosesOf(lines), 0);
    RecordsOfIndex(lines, SitesOf(lines), k);
    assert SitesOf(lines)[k] in SitesOf(lines);
  }

  /**
   * Every record of `code` describes a signature line that is not skipped, is followed by a
   * line holding only `{`, and whose body closes on line `endLine >= startLine + 2`; its
   * `code` is lines `startLine..endLine` joined, and its name is a word of the signature
   * that an opening parenthesis follows.
   */
  lemma RecordsWellFormed(code: string, k: nat)
    requires k < |FunctionsIn(code)|
    ensures RecordAt(Split(code), FunctionsIn(code)[k].startLine - 1, FunctionsIn(code)[k])
    ensures exists p :: CallAt(FunctionsIn(code)[k].signature, p, FunctionsIn(code)[k].name)
  {
    SiteOfRecord(code, k);
    var r := FunctionsIn(code)[k];
    SignatureNameIsCall(r.signature);
  }

  /** Records come out in source order and do not overlap. */
  lemma RecordsOrdered(code: string, a: nat, b: nat)
    requires a < b < |FunctionsIn(code)|
    ensures FunctionsIn(code)[a].endLine < FunctionsIn(code)[b].startLine
  {
    var lines := Split(code);
    SiteOfRecord(code, a);
    SiteOfRecord(code, b);
    ScanSitesOrdered(NamesOf(lines), ClosesOf(lines), 0, a, b);
    SiteOfRecord(code, b);
  }

  /** A signature whose body never closes produces no record; scanning goes on at the next line. */
  lemma UnclosedBodyNoRecord(code: string, idx: nat, k: nat)
    requires idx + 1 < |Split(code)| && BodyClose(Split(code), idx) == None
    requires k < |FunctionsIn(code)|
    ensures FunctionsIn(code)[k].startLine != idx + 1
  {
    RecordsWellFormed(code, k);
  }

  /** A skipped line is never the signature of a record. */
  lemma SkippedLineNoRecord(code: string, idx: nat, k: nat)
    requires idx < |Split(code)| && IsSkippedLine(Strip(Split(code)[idx]))
    requires k < |FunctionsIn(code)|
    ensures FunctionsIn(code)[k].startLine != idx + 1
  {
    RecordsWellFormed(code, k);
  }

  /**
   * Every accepted signature line whose body closes yields a record, unless it lies strictly
   * within the lines of another record.
   */
  lemma RecordsComplete(code: string, idx: nat)
    requires idx + 1 < |Split(code)|
    requires CandidateName(Split(code), idx).Some? && BodyClose(Split(code), idx).Some?
    requires forall k :: 0 <= k < |FunctionsIn(code)| ==>
               !(FunctionsIn(code)[k].startLine - 1 < idx < FunctionsIn(code)[k].endLine)
    ensures exists k :: 0 <= k < |FunctionsIn(code)| && FunctionsIn(code)[k].startLine == idx + 1
  {
    var lines := Split(code);
    var names := NamesOf(lines);
    var closes := ClosesOf(lines);
    var sites := SitesOf(lines);
    forall s | s in sites ensures !Inside(s, idx) {
      var k :| 0 <= k < |sites| && sites[k] == s;
      SiteOfRecord(code, k);
    }
    assert names[idx].Some? && closes[idx].Some?;
    ScanSitesComplete(names, closes, 0, idx);
    var s :| s in sites && s.index == idx;
    var k :| 0 <= k < |sites| && sites[k] == s;
    SiteOfRecord(code, k);
  }
}
