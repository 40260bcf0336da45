/**
 * `search_code_tool` (src/tools/mcp_tools.py): the content is split into lines and every line
 * is matched in one of four modes; each matching line gives a result carrying its 1-based
 * number and its stripped text.  The count covers every match, the returned list only the
 * first fifty.
 *
 * The function and variable modes build a pattern from the escaped search text, so they are
 * literal matches with word-boundary and parenthesis conditions, written out here.  The
 * regex mode runs a user pattern, which is not modelled: it is given as an optional
 * compiled predicate, `None` standing for a pattern `re.compile` rejects.
 */
module Search {
  import opened Text
  import opened Lexer

  /** `search_type`; every other string reaches none of the four branches. */
  datatype Mode = FunctionMode | VariableMode | StringMode | RegexMode | OtherMode

  /** The branch of the `if`/`elif` ladder that a `search_type` string selects. */
  function ModeOf(searchType: string): (m: Mode)
    ensures m == FunctionMode <==> searchType == "function"
    ensures m == VariableMode <==> searchType == "variable"
    ensures m == StringMode <==> searchType == "string"
    ensures m == RegexMode <==> searchType == "regex"
    ensures m == OtherMode <==> searchType !in ["function", "variable", "string", "regex"]
  {
    if searchType == "function" then FunctionMode
    else if searchType == "variable" then VariableMode
    else if searchType == "string" then StringMode
    else if searchType == "regex" then RegexMode
    else OtherMode
  }

  /** The `match_type` labels. */
  datatype MatchKind = Definition | Call | VariableUsage | StringLiteral | RegexMatch

  /** One result; `functionName` is present in function mode only. */
  datatype Hit = Hit(lineNumber: nat, lineContent: string, kind: MatchKind, functionName: Option<string>)

  /** `pattern.search(line)` for a compiled user pattern. */
  type Compiled = string -> bool

  /** How many results are returned. */
  const MaxResults: nat := 50

  // ---------------------------------------------------------------------------
  // The two built patterns

  predicate WordBefore(s: string, p: nat) {
    0 < p <= |s| && IsWordChar(s[p - 1])
  }

  predicate WordAfter(s: string, p: nat) {
    p < |s| && IsWordChar(s[p])
  }

  /** `\b` at `p`: a word character on exactly one side. */
  predicate Boundary(s: string, p: nat) {
    WordBefore(s, p) != WordAfter(s, p)
  }

  /** `\bW\s*\(` matches at `p`, for the escaped text `W`. */
  predicate CallPatternAt(s: string, w: string, p: nat) {
    OccursAt(s, w, p) && Boundary(s, p) && ParenFollows(s, p + |w|)
  }

  /** `\bW\b` matches at `p`. */
  predicate VariablePatternAt(s: string, w: string, p: nat) {
    OccursAt(s, w, p) && Boundary(s, p) && Boundary(s, p + |w|)
  }

  predicate CallPatternFrom(s: string, w: string, k: nat)
    requires k <= |s|
    decreases |s| - k
  {
    CallPatternAt(s, w, k) || (k < |s| && CallPatternFrom(s, w, k + 1))
  }

  predicate VariablePatternFrom(s: string, w: string, k: nat)
    requires k <= |s|
    decreases |s| - k
  {
    VariablePatternAt(s, w, k) || (k < |s| && VariablePatternFrom(s, w, k + 1))
  }

  lemma {:induction false} CallPatternFromIff(s: string, w: string, k: nat)
    requires k <= |s|
    ensures CallPatternFrom(s, w, k) <==> exists p: nat :: k <= p && CallPatternAt(s, w, p)
    decreases |s| - k
  {
    if k < |s| {
      CallPatternFromIff(s, w, k + 1);
      assert forall p: nat :: k <= p && CallPatternAt(s, w, p) ==> p == k || k + 1 <= p;
    } else {
      assert forall p: nat :: k <= p && CallPatternAt(s, w, p) ==> p == k;
    }
  }

  lemma {:induction false} VariablePatternFromIff(s: string, w: string, k: nat)
    requires k <= |s|
    ensures VariablePatternFrom(s, w, k) <==> exists p: nat :: k <= p && VariablePatternAt(s, w, p)
    decreases |s| - k
  {
    if k < |s| {
      VariablePatternFromIff(s, w, k + 1);
      assert forall p: nat :: k <= p && VariablePatternAt(s, w, p) ==> p == k || k + 1 <= p;
    } else {
      assert forall p: nat :: k <= p && VariablePatternAt(s, w, p) ==> p == k;
    }
  }

  /** `re.search` with the function-mode pattern. */
  predicate CallPatternIn(line: string, w: string) {
    CallPatternFrom(line, w, 0)
  }

  /** `re.search` with the variable-mode pattern. */
  predicate VariablePatternIn(line: string, w: string) {
    VariablePatternFrom(line, w, 0)
  }

  /** Function mode finds a line exactly when the pattern matches at some position of it. */
  lemma CallPatternInIff(line: string, w: string)
    ensures CallPatternIn(line, w) <==> exists p: nat :: CallPatternAt(line, w, p)
  {
    CallPatternFromIff(line, w, 0);
  }

  /** Variable mode finds a line exactly when the pattern matches at some position of it. */
  lemma VariablePatternInIff(line: string, w: string)
    ensures VariablePatternIn(line, w) <==> exists p: nat :: VariablePatternAt(line, w, p)
  {
    VariablePatternFromIff(line, w, 0);
  }

  /** Each built pattern only matches where the text itself occurs, so a line found in
      function or variable mode is found in string mode too. */
  lemma PatternsNeedText(line: string, w: string)
    ensures CallPatternIn(line, w) ==> Contains(line, w)
    ensures VariablePatternIn(line, w) ==> Contains(line, w)
  {
    CallPatternInIff(line, w);
    VariablePatternInIff(line, w);
    if CallPatternIn(line, w) {
      var p: nat :| CallPatternAt(line, w, p);
      ContainsAt(line, w, p);
    }
    if VariablePatternIn(line, w) {
      var p: nat :| VariablePatternAt(line, w, p);
      ContainsAt(line, w, p);
    }
  }

  // ---------------------------------------------------------------------------
  // One line

  /** The keywords whose presence makes a function-mode hit a definition. */
  const DefinitionWords: seq<string> := ["int ", "void ", "static ", "char ", "uint"]

  predicate IsDefinition(line: string) {
    HitsAny(DefinitionWords, line)
  }

  /** Whether a line is a result in the given mode. */
  predicate Matches(mode: Mode, w: string, compiled: Option<Compiled>, line: string) {
    match mode
    case FunctionMode => CallPatternIn(line, w)
    case VariableMode => VariablePatternIn(line, w)
    case StringMode => Contains(line, w)
    case RegexMode => compiled.Some? && compiled.value(line)
    case OtherMode => false
  }

  function KindOf(mode: Mode, line: string): MatchKind {
    match mode
    case FunctionMode => if IsDefinition(line) then Definition else Call
    case VariableMode => VariableUsage
    case StringMode => StringLiteral
    case RegexMode => RegexMatch
    case OtherMode => RegexMatch
  }

  /** The result line number `n` gives, if it matches. */
  function LineHit(mode: Mode, w: string, compiled: Option<Compiled>, n: nat, line: string): Option<Hit> {
    if Matches(mode, w, compiled, line) then
      Some(Hit(n, Strip(line), KindOf(mode, line), if mode == FunctionMode then Some(w) else None))
    else None
  }

  function AsSeq(h: Option<Hit>): seq<Hit> {
    if h.Some? then [h.value] else []
  }

  /** The results of all lines, in line order. */
  function Hits(lines: seq<string>, mode: Mode, w: string, compiled: Option<Compiled>): seq<Hit> {
    if |lines| == 0 then []
    else Hits(lines[..|lines| - 1], mode, w, compiled) + AsSeq(LineHit(mode, w, compiled, |lines|, lines[|lines| - 1]))
  }

  lemma HitsSnoc(lines: seq<string>, mode: Mode, w: string, compiled: Option<Compiled>, i: nat)
    requires i < |lines|
    ensures Hits(lines[..i + 1], mode, w, compiled)
      == Hits(lines[..i], mode, w, compiled) + AsSeq(LineHit(mode, w, compiled, i + 1, lines[i]))
  {
    assert lines[..i + 1][..i] == lines[..i];
  }

  // ---------------------------------------------------------------------------
  // The scan

  /** The function-mode loop. */
  method SearchFunction(lines: seq<string>, w: string, compiled: Option<Compiled>) returns (hits: seq<Hit>)
    ensures hits == Hits(lines, FunctionMode, w, compiled)
  {
    hits := [];
    for i := 0 to |lines|
      invariant hits == Hits(lines[..i], FunctionMode, w, compiled)
    {
      HitsSnoc(lines, FunctionMode, w, compiled, i);
      if CallPatternFrom(lines[i], w, 0) {
        var kind := if HitsAny(DefinitionWords, lines[i]) then Definition else Call;
        hits := hits + [Hit(i + 1, Strip(lines[i]), kind, Some(w))];
      }
    }
    assert lines[..|lines|] == lines;
  }

  /** The variable-mode loop. */
  method SearchVariable(lines: seq<string>, w: string, compiled: Option<Compiled>) returns (hits: seq<Hit>)
    ensures hits == Hits(lines, VariableMode, w, compiled)
  {
    hits := [];
    for i := 0 to |lines|
      invariant hits == Hits(lines[..i], VariableMode, w, compiled)
    {
      HitsSnoc(lines, VariableMode, w, compiled, i);
      if VariablePatternFrom(lines[i], w, 0) {
        hits := hits + [Hit(i + 1, Strip(lines[i]), VariableUsage, None)];
      }
    }
    assert lines[..|lines|] == lines;
  }

  /** The string-mode loop. */
  method SearchString(lines: seq<string>, w: string, compiled: Option<Compiled>) returns (hits: seq<Hit>)
    ensures hits == Hits(lines, StringMode, w, compiled)
  {
    hits := [];
    for i := 0 to |lines|
      invariant hits == Hits(lines[..i], StringMode, w, compiled)
    {
      HitsSnoc(lines, StringMode, w, compiled, i);
      if Contains(lines[i], w) {
        hits := hits + [Hit(i + 1, Strip(lines[i]), StringLiteral, None)];
      }
    }
    assert lines[..|lines|] == lines;
  }

  /** The regex-mode loop, once the user pattern has compiled. */
  method SearchRegex(lines: seq<string>, w: string, search: Compiled) returns (hits: seq<Hit>)
    ensures hits == Hits(lines, RegexMode, w, Some(search))
  {
    hits := [];
    for i := 0 to |lines|
      invariant hits == Hits(lines[..i], RegexMode, w, Some(search))
    {
      HitsSnoc(lines, RegexMode, w, Some(search), i);
      if search(lines[i]) {
        hits := hits + [Hit(i + 1, Strip(lines[i]), RegexMatch, None)];
      }
    }
    assert lines[..|lines|] == lines;
  }

  /** The dispatch on the search type; nothing is found in any other mode. */
  method SearchLines(lines: seq<string>, mode: Mode, w: string, compiled: Option<Compiled>) returns (hits: seq<Hit>)
    ensures hits == Hits(lines, mode, w, compiled)
  {
    if mode == FunctionMode {
      hits := SearchFunction(lines, w, compiled);
    } else if mode == VariableMode {
      hits := SearchVariable(lines, w, compiled);
    } else if mode == StringMode {
      hits := SearchString(lines, w, compiled);
    } else if mode == RegexMode && compiled.Some? {
      hits := SearchRegex(lines, w, compiled.value);
    } else {
      hits := [];
      NothingFound(lines, mode, w, compiled);
    }
  }

  /** The tool's answer: the error for a rejected user pattern, or the report, which echoes
      the search text and the `search_type` string as given. */
  datatype Outcome =
    | InvalidPattern
    | Report(searchPattern: string, searchType: string, totalMatches: nat, results: seq<Hit>, totalLines: nat)

  function SearchOf(content: string, searchType: string, w: string, compiled: Option<Compiled>): Outcome {
    var mode := ModeOf(searchType);
    if mode == RegexMode && compiled.None? then InvalidPattern
    else
      var lines := Split(content);
      var hits := Hits(lines, mode, w, compiled);
      Report(w, searchType, |hits|, PyPrefix(hits, MaxResults as int), |lines|)
  }

  method SearchCode(content: string, searchType: string, w: string, compiled: Option<Compiled>) returns (outcome: Outcome)
    ensures outcome == SearchOf(content, searchType, w, compiled)
  {
    var mode := ModeOf(searchType);
    if mode == RegexMode && compiled.None? {
      return InvalidPattern;
    }
    var lines := Split(content);
    var hits := SearchLines(lines, mode, w, compiled);
    outcome := Report(w, searchType, |hits|, PyPrefix(hits, MaxResults as int), |lines|);
  }

  // ---------------------------------------------------------------------------
  // What the results are

  lemma {:induction false} HitsLength(lines: seq<string>, mode: Mode, w: string, compiled: Option<Compiled>)
    ensures |Hits(lines, mode, w, compiled)| <= |lines|
  {
    if |lines| > 0 {
      HitsLength(lines[..|lines| - 1], mode, w, compiled);
    }
  }

  /** Every result belongs to a line of the content and is what that line gives. */
  lemma {:induction false} HitsSound(lines: seq<string>, mode: Mode, w: string, compiled: Option<Compiled>)
    ensures |Hits(lines, mode, w, compiled)| <= |lines|
    ensures forall h :: h in Hits(lines, mode, w, compiled) ==>
      1 <= h.lineNumber <= |lines| && LineHit(mode, w, compiled, h.lineNumber, lines[h.lineNumber - 1]) == Some(h)
  {
    HitsLength(lines, mode, w, compiled);
    if |lines| > 0 {
      var init := lines[..|lines| - 1];
      HitsSound(init, mode, w, compiled);
      var last := AsSeq(LineHit(mode, w, compiled, |lines|, lines[|lines| - 1]));
      assert Hits(lines, mode, w, compiled) == Hits(init, mode, w, compiled) + last;
      forall h | h in Hits(lines, mode, w, compiled)
        ensures 1 <= h.lineNumber <= |lines| && LineHit(mode, w, compiled, h.lineNumber, lines[h.lineNumber - 1]) == Some(h)
      {
        if h in Hits(init, mode, w, compiled) {
          assert lines[h.lineNumber - 1] == init[h.lineNumber - 1];
        } else {
          assert h in last;
        }
      }
    }
  }

  /** Every matching line gives its result. */
  lemma {:induction false} HitsComplete(lines: seq<string>, mode: Mode, w: string, compiled: Option<Compiled>)
    ensures forall i :: 0 <= i < |lines| && Matches(mode, w, compiled, lines[i]) ==>
      LineHit(mode, w, compiled, i + 1, lines[i]).Some?
      && LineHit(mode, w, compiled, i + 1, lines[i]).value in Hits(lines, mode, w, compiled)
  {
    if |lines| > 0 {
      var init := lines[..|lines| - 1];
      HitsComplete(init, mode, w, compiled);
      assert forall j :: 0 <= j < |init| ==> init[j] == lines[j];
    }
  }

  /** The results come in strictly increasing line order, so no line is reported twice. */
  lemma {:induction false} HitsAscending(lines: seq<string>, mode: Mode, w: string, compiled: Option<Compiled>, a: nat, b: nat)
    requires a < b < |Hits(lines, mode, w, compiled)|
    ensures Hits(lines, mode, w, compiled)[a].lineNumber < Hits(lines, mode, w, compiled)[b].lineNumber
  {
    var init := lines[..|lines| - 1];
    var before := Hits(init, mode, w, compiled);
    var last := AsSeq(LineHit(mode, w, compiled, |lines|, lines[|lines| - 1]));
    assert Hits(lines, mode, w, compiled) == before + last;
    if b < |before| {
      HitsAscending(init, mode, w, compiled, a, b);
    } else {
      assert Hits(lines, mode, w, compiled)[b] in last;
      HitLine(init, mode, w, compiled, before[a]);
    }
  }

  lemma HitLine(lines: seq<string>, mode: Mode, w: string, compiled: Option<Compiled>, h: Hit)
    requires h in Hits(lines, mode, w, compiled)
    ensures 1 <= h.lineNumber <= |lines|
    ensures LineHit(mode, w, compiled, h.lineNumber, lines[h.lineNumber - 1]) == Some(h)
  {
    HitsSound(lines, mode, w, compiled);
  }

  /** A line is reported exactly when it matches in the mode searched. */
  lemma LineReported(lines: seq<string>, mode: Mode, w: string, compiled: Option<Compiled>, i: nat)
    requires i < |lines|
    ensures (exists h :: h in Hits(lines, mode, w, compiled) && h.lineNumber == i + 1)
      <==> Matches(mode, w, compiled, lines[i])
  {
    var all := Hits(lines, mode, w, compiled);
    if Matches(mode, w, compiled, lines[i]) {
      HitsComplete(lines, mode, w, compiled);
      var h := LineHit(mode, w, compiled, i + 1, lines[i]).value;
      assert h in all && h.lineNumber == i + 1;
    } else {
      forall h | h in all
        ensures h.lineNumber != i + 1
      {
        HitLine(lines, mode, w, compiled, h);
      }
    }
  }

  /** In string mode a line is reported exactly when the search text is a substring of it. */
  lemma StringModeIff(lines: seq<string>, w: string, compiled: Option<Compiled>, i: nat)
    requires i < |lines|
    ensures (exists h :: h in Hits(lines, StringMode, w, compiled) && h.lineNumber == i + 1)
      <==> Contains(lines[i], w)
  {
    LineReported(lines, StringMode, w, compiled, i);
  }

  /** A function-mode result is a definition exactly when its line holds one of the type
      keywords, and it carries the searched name. */
  lemma FunctionKinds(lines: seq<string>, w: string, compiled: Option<Compiled>, h: Hit)
    requires h in Hits(lines, FunctionMode, w, compiled)
    ensures 1 <= h.lineNumber <= |lines|
    ensures h.functionName == Some(w)
    ensures h.lineContent == Strip(lines[h.lineNumber - 1])
    ensures h.kind == Definition <==> IsDefinition(lines[h.lineNumber - 1])
    ensures h.kind != Definition ==> h.kind == Call
  {
    HitLine(lines, FunctionMode, w, compiled, h);
  }

  /** A line counts as a definition when one of the type keywords occurs in it. */
  lemma IsDefinitionIff(line: string)
    ensures IsDefinition(line) <==> exists k :: k in DefinitionWords && Contains(line, k)
  {
    HitsAnyIff(DefinitionWords, line);
  }

  /** The report counts every match, returns the first fifty in order, and says how many
      lines were searched; only a rejected user pattern gives the error. */
  lemma SearchFacts(content: string, searchType: string, w: string, compiled: Option<Compiled>)
    ensures SearchOf(content, searchType, w, compiled).InvalidPattern? <==> searchType == "regex" && compiled.None?
    ensures SearchOf(content, searchType, w, compiled).Report? ==>
      var o := SearchOf(content, searchType, w, compiled);
      var all := Hits(Split(content), ModeOf(searchType), w, compiled);
      && o.totalMatches == |all|
      && o.totalLines == |Split(content)|
      && o.totalMatches <= o.totalLines
      && |o.results| == (if |all| < MaxResults then |all| else MaxResults)
      && o.results == all[..|o.results|]
      && o.searchPattern == w && o.searchType == searchType
    ensures searchType !in ["function", "variable", "string", "regex"] ==>
      SearchOf(content, searchType, w, compiled).Report? &&
      SearchOf(content, searchType, w, compiled).totalMatches == 0
  {
    var mode := ModeOf(searchType);
    if mode == OtherMode {
      NothingFound(Split(content), mode, w, compiled);
    }
    HitsSound(Split(content), mode, w, compiled);
  }

  /** Nothing is ever found in a mode the tool does not know, nor by a rejected user pattern. */
  lemma {:induction false} NothingFound(lines: seq<string>, mode: Mode, w: string, compiled: Option<Compiled>)
    requires mode == OtherMode || (mode == RegexMode && compiled.None?)
    ensures Hits(lines, mode, w, compiled) == []
  {
    if |lines| > 0 {
      NothingFound(lines[..|lines| - 1], mode, w, compiled);
    }
  }
}
