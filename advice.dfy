/**
 * `analyze_function` and `refactor_function` (src/tools/mcp_tools.py): textual indicators of
 * one function's code, hints read off its name, and the threshold ladders that turn counts
 * into labels, a score and a priority.  The labels are enum values.
 */
module Advice {
  import opened Text
  import opened Lexer
  import opened Analyzer

  // ---------------------------------------------------------------------------
  // complexity_indicators

  datatype Indicators = Indicators(loops: nat, conditions: nat, functionCalls: nat, lineCount: nat, nestedBlocks: nat)

  /** The `line_count` indicator: how many lines are not blank after stripping
      (`len([l for l in lines if l.strip()])`). */
  function NonBlankCount(lines: seq<string>): nat {
    if |lines| == 0 then 0
    else NonBlankCount(lines[..|lines| - 1]) + (if Strip(lines[|lines| - 1]) != "" then 1 else 0)
  }

  function IndicatorsOf(code: string): Indicators {
    Indicators(
      CountWord(code, "for") + CountWord(code, "while") + CountWord(code, "do"),
      CountWord(code, "if") + CountWord(code, "else") + CountWord(code, "switch"),
      |CallWords(code)|,
      NonBlankCount(Split(code)),
      CountOccurrences(code, "{"))
  }

  /** The non-blank count is the number of lines that hold something besides white space. */
  lemma {:induction false} NonBlankCountFacts(lines: seq<string>)
    ensures NonBlankCount(lines) <= |lines|
    ensures NonBlankCount(lines) == |lines| <==> forall i :: 0 <= i < |lines| ==> Strip(lines[i]) != ""
    ensures NonBlankCount(lines) == 0 <==> forall i :: 0 <= i < |lines| ==> Strip(lines[i]) == ""
  {
    if |lines| > 0 {
      var init := lines[..|lines| - 1];
      NonBlankCountFacts(init);
      assert forall i :: 0 <= i < |init| ==> init[i] == lines[i];
    }
  }

  /** There are calls exactly when some word is followed by `(`, loops when a loop keyword is a word. */
  lemma IndicatorsFacts(code: string)
    ensures IndicatorsOf(code).functionCalls > 0 <==> exists p, w :: CallAt(code, p, w)
    ensures IndicatorsOf(code).loops > 0 <==> "for" in Words(code) || "while" in Words(code) || "do" in Words(code)
    ensures IndicatorsOf(code).lineCount <= |Split(code)|
  {
    NonBlankCountFacts(Split(code));
    if |CallWords(code)| > 0 {
      CallWordsIff(code, CallWords(code)[0]);
    }
    forall p, w | CallAt(code, p, w) ensures |CallWords(code)| > 0 {
      CallWordsIff(code, w);
    }
  }

  // ---------------------------------------------------------------------------
  // purpose_hints

  /** The purpose labels, in the order the checks run; `General` is the fallback estimate. */
  datatype Purpose = Initialization | Release | DataRead | DataWrite | Communication
    | ModbusProtocol | TcpNetwork | RtuSerial | General

  const PurposeOrder: seq<Purpose> :=
    [Initialization, Release, DataRead, DataWrite, Communication, ModbusProtocol, TcpNetwork, RtuSerial]

  function PurposeWords(p: Purpose): seq<string> {
    match p
    case Initialization => ["init", "initialize", "setup", "create"]
    case Release => ["free", "destroy", "cleanup", "close"]
    case DataRead => ["get", "read", "fetch"]
    case DataWrite => ["set", "write", "store"]
    case Communication => ["send", "recv", "transmit"]
    case ModbusProtocol => ["modbus"]
    case TcpNetwork => ["tcp"]
    case RtuSerial => ["rtu"]
    case General => []
  }

  /** Position of a label in the check order; the fallback comes last. */
  function PurposeRank(p: Purpose): (r: nat)
    ensures r < |PurposeOrder| ==> PurposeOrder[r] == p
    ensures p != General <==> r < |PurposeOrder|
  {
    match p
    case Initialization => 0
    case Release => 1
    case DataRead => 2
    case DataWrite => 3
    case Communication => 4
    case ModbusProtocol => 5
    case TcpNetwork => 6
    case RtuSerial => 7
    case General => 8
  }

  lemma RankOfOrder(i: nat)
    requires i < |PurposeOrder|
    ensures PurposeRank(PurposeOrder[i]) == i
  {
    assert PurposeOrder == [Initialization, Release, DataRead, DataWrite, Communication, ModbusProtocol, TcpNetwork, RtuSerial];
    if i < 4 {
      assert i == 0 || i == 1 || i == 2 || i == 3;
    } else {
      assert i == 4 || i == 5 || i == 6 || i == 7;
    }
  }

  /** The hints among the first `k` checks, in check order. */
  function HintsUpTo(lname: string, k: nat): seq<Purpose>
    requires k <= |PurposeOrder|
  {
    if k == 0 then []
    else HintsUpTo(lname, k - 1) + (if HitsAny(PurposeWords(PurposeOrder[k - 1]), lname) then [PurposeOrder[k - 1]] else [])
  }

  function PurposeHints(name: string): seq<Purpose> {
    HintsUpTo(Lower(name), |PurposeOrder|)
  }

  lemma {:induction false} HintsUpToMembers(lname: string, k: nat)
    requires k <= |PurposeOrder|
    ensures forall p :: p in HintsUpTo(lname, k) <==> PurposeRank(p) < k && HitsAny(PurposeWords(p), lname)
  {
    if k > 0 {
      HintsUpToMembers(lname, k - 1);
      RankOfOrder(k - 1);
    }
  }

  lemma {:induction false} HintsUpToOrdered(lname: string, k: nat)
    requires k <= |PurposeOrder|
    ensures forall i, j :: 0 <= i < j < |HintsUpTo(lname, k)| ==>
      PurposeRank(HintsUpTo(lname, k)[i]) < PurposeRank(HintsUpTo(lname, k)[j])
  {
    if k > 0 {
      HintsUpToOrdered(lname, k - 1);
      var h := HintsUpTo(lname, k - 1);
      var p := PurposeOrder[k - 1];
      if HitsAny(PurposeWords(p), lname) {
        HintsUpToMembers(lname, k - 1);
        RankOfOrder(k - 1);
        var h' := h + [p];
        assert HintsUpTo(lname, k) == h';
        forall i, j | 0 <= i < j < |h'| ensures PurposeRank(h'[i]) < PurposeRank(h'[j]) {
          if j == |h| {
            assert h'[i] == h[i] && h[i] in h;
          } else {
            assert h'[i] == h[i] && h'[j] == h[j];
          }
        }
      }
    }
  }

  lemma HintsUpToFacts(lname: string, k: nat)
    requires k <= |PurposeOrder|
    ensures forall p :: p in HintsUpTo(lname, k) <==> PurposeRank(p) < k && HitsAny(PurposeWords(p), lname)
    ensures forall i, j :: 0 <= i < j < |HintsUpTo(lname, k)| ==>
      PurposeRank(HintsUpTo(lname, k)[i]) < PurposeRank(HintsUpTo(lname, k)[j])
  {
    HintsUpToMembers(lname, k);
    HintsUpToOrdered(lname, k);
  }

  /**
   * A purpose is hinted exactly when one of its words occurs in the lower-cased name; the
   * hints come in check order, each once, and never include the fallback.
   */
  lemma PurposeHintsFacts(name: string)
    ensures forall p :: p in PurposeHints(name) <==> exists w :: w in PurposeWords(p) && Contains(Lower(name), w)
    ensures forall i, j :: 0 <= i < j < |PurposeHints(name)| ==>
      PurposeRank(PurposeHints(name)[i]) < PurposeRank(PurposeHints(name)[j])
    ensures General !in PurposeHints(name)
  {
    HintsUpToFacts(Lower(name), |PurposeOrder|);
    forall p ensures p in PurposeHints(name) <==> exists w :: w in PurposeWords(p) && Contains(Lower(name), w) {
      HitsAnyIff(PurposeWords(p), Lower(name));
    }
  }

  /** `" | ".join(purpose_hints) if purpose_hints else "通用处理函数"`, as labels. */
  function EstimatedPurpose(hints: seq<Purpose>): seq<Purpose> {
    if |hints| == 0 then [General] else hints
  }

  // ---------------------------------------------------------------------------
  // error_handling and security_concerns

  /** `\bif\s*\(` at `p`: the word start `if`, white space, then `(`. */
  predicate IfOpenAt(s: string, p: nat) {
    p + 2 <= |s| && s[p] == 'i' && s[p + 1] == 'f' && (p == 0 || !IsWordChar(s[p - 1]))
    && SkipSpaces(s, p + 2) < |s| && s[SkipSpaces(s, p + 2)] == '('
  }

  /** `==\s*NULL\)` at `r`. */
  predicate EqualsNullAt(s: string, r: nat) {
    r + 2 <= |s| && s[r] == '=' && s[r + 1] == '=' && NullCloseAt(s, SkipSpaces(s, r + 2))
  }

  /** `NULL\)` at `t`. */
  predicate NullCloseAt(s: string, t: nat) {
    t + 5 <= |s| && s[t] == 'N' && s[t + 1] == 'U' && s[t + 2] == 'L' && s[t + 3] == 'L' && s[t + 4] == ')'
  }

  /** `[^)]*` spans `s[k..r]`. */
  predicate NoCloseParen(s: string, k: nat, r: nat)
    requires k <= r <= |s|
  {
    forall i :: k <= i < r ==> s[i] != ')'
  }

  /** `re.search(r'\bif\s*\([^)]*==\s*NULL\)', s)` finds a match, by its definition. */
  ghost predicate NullCheckMatch(s: string) {
    exists p: nat, r: nat :: NullMatchAt(s, p, r)
  }

  /** A match that starts at `p` and has `==` at `r`. */
  predicate NullMatchAt(s: string, p: nat, r: nat) {
    IfOpenAt(s, p) && SkipSpaces(s, p + 2) < r <= |s|
    && NoCloseParen(s, SkipSpaces(s, p + 2) + 1, r) && EqualsNullAt(s, r)
  }

  /** Tries each end of `[^)]*` from `k` on. */
  function NullTestFrom(s: string, k: nat): bool
    requires k <= |s|
    decreases |s| - k
  {
    if EqualsNullAt(s, k) then true
    else if k < |s| && s[k] != ')' then NullTestFrom(s, k + 1)
    else false
  }

  /** Tries each start of the match from `p` on. */
  function NullCheckFrom(s: string, p: nat): bool
    decreases |s| - p
  {
    if p >= |s| then false
    else (IfOpenAt(s, p) && NullTestFrom(s, SkipSpaces(s, p + 2) + 1)) || NullCheckFrom(s, p + 1)
  }

  function HasNullCheck(s: string): bool {
    NullCheckFrom(s, 0)
  }

  lemma {:induction false} NullTestFromIff(s: string, k: nat)
    requires k <= |s|
    ensures NullTestFrom(s, k) <==> exists r: nat :: k <= r <= |s| && NoCloseParen(s, k, r) && EqualsNullAt(s, r)
    decreases |s| - k
  {
    if EqualsNullAt(s, k) {
      assert NoCloseParen(s, k, k);
    } else if k < |s| && s[k] != ')' {
      NullTestFromIff(s, k + 1);
      if r: nat :| k <= r <= |s| && NoCloseParen(s, k, r) && EqualsNullAt(s, r) {
        assert r != k && NoCloseParen(s, k + 1, r);
      }
      if r: nat :| k + 1 <= r <= |s| && NoCloseParen(s, k + 1, r) && EqualsNullAt(s, r) {
        assert NoCloseParen(s, k, r);
      }
    } else {
      forall r: nat | k <= r <= |s| && NoCloseParen(s, k, r) ensures !EqualsNullAt(s, r) {
        if r > k {
          assert false;
        }
      }
    }
  }

  /** Some match starts at `p`. */
  ghost predicate MatchStartsAt(s: string, p: nat) {
    exists r: nat :: NullMatchAt(s, p, r)
  }

  lemma NullCheckAtSound(s: string, p: nat)
    requires p < |s| && IfOpenAt(s, p) && NullTestFrom(s, SkipSpaces(s, p + 2) + 1)
    ensures MatchStartsAt(s, p)
  {
    var k := SkipSpaces(s, p + 2) + 1;
    NullTestFromIff(s, k);
    var r: nat :| k <= r <= |s| && NoCloseParen(s, k, r) && EqualsNullAt(s, r);
    assert NullMatchAt(s, p, r);
  }

  lemma NullCheckAtComplete(s: string, p: nat, r: nat)
    requires NullMatchAt(s, p, r)
    ensures IfOpenAt(s, p) && NullTestFrom(s, SkipSpaces(s, p + 2) + 1)
  {
    NullTestFromIff(s, SkipSpaces(s, p + 2) + 1);
  }

  lemma NullCheckAtIff(s: string, p: nat)
    requires p < |s|
    ensures (IfOpenAt(s, p) && NullTestFrom(s, SkipSpaces(s, p + 2) + 1)) <==> MatchStartsAt(s, p)
  {
    if IfOpenAt(s, p) && NullTestFrom(s, SkipSpaces(s, p + 2) + 1) {
      NullCheckAtSound(s, p);
    }
    if MatchStartsAt(s, p) {
      var r: nat :| NullMatchAt(s, p, r);
      NullCheckAtComplete(s, p, r);
    }
  }

  lemma {:induction false} NullCheckFromIff(s: string, p: nat)
    ensures NullCheckFrom(s, p) <==> exists q: nat :: p <= q < |s| && MatchStartsAt(s, q)
    decreases |s| - p
  {
    if p < |s| {
      NullCheckFromIff(s, p + 1);
      NullCheckAtIff(s, p);
      if q: nat :| p <= q < |s| && MatchStartsAt(s, q) {
        if q != p {
          assert p + 1 <= q;
        }
      }
    }
  }

  /** The scanner decides the regular expression. */
  lemma HasNullCheckIff(s: string)
    ensures HasNullCheck(s) <==> NullCheckMatch(s)
  {
    NullCheckFromIff(s, 0);
    if NullCheckMatch(s) {
      var p: nat, r: nat :| NullMatchAt(s, p, r);
      assert MatchStartsAt(s, p);
    }
  }

  datatype ErrorHint = ErrorReturn | UsesErrno | NullCheck

  function ErrorHandling(code: string): seq<ErrorHint> {
    (if Contains(code, "return -1") || Contains(code, "return NULL") then [ErrorReturn] else [])
    + (if Contains(code, "errno") then [UsesErrno] else [])
    + (if HasNullCheck(code) then [NullCheck] else [])
  }

  datatype Concern = UnsafeStringFunction | PossibleLeak

  const UnsafeStringFunctions: seq<string> := ["strcpy", "strcat", "sprintf", "gets"]

  /**
   * `re.search(r'\b(strcpy|strcat|sprintf|gets)\b', code)`: these names are made of word
   * characters, so a match is a maximal word equal to one of them.
   */
  predicate UsesUnsafeString(code: string) {
    exists w :: w in UnsafeStringFunctions && w in Words(code)
  }

  function SecurityConcerns(code: string): seq<Concern> {
    (if UsesUnsafeString(code) then [UnsafeStringFunction] else [])
    + (if "malloc" in Words(code) && !Contains(code, "free") then [PossibleLeak] else [])
  }

  // ---------------------------------------------------------------------------
  // The ladders

  datatype Level = VeryHigh | High | Medium | Low

  function LevelRank(l: Level): nat {
    match l
    case Low => 0
    case Medium => 1
    case High => 2
    case VeryHigh => 3
  }

  /** `complexity_level` from the non-blank line count. */
  function ComplexityLevel(lineCount: nat): (l: Level)
    ensures l == VeryHigh <==> lineCount > 100
    ensures l == High <==> 50 < lineCount <= 100
    ensures l == Low <==> lineCount <= 20
  {
    if lineCount > 100 then VeryHigh
    else if lineCount > 50 then High
    else if lineCount > 20 then Medium
    else Low
  }

  datatype Reliability = Excellent | Good | Fair | NeedsImprovement

  function ReliabilityRank(r: Reliability): nat {
    match r
    case NeedsImprovement => 0
    case Fair => 1
    case Good => 2
    case Excellent => 3
  }

  /** `reliability` from the number of error-handling hints. */
  function ReliabilityOf(hints: nat): (r: Reliability)
    ensures r == Excellent <==> hints >= 3
    ensures r == Fair <==> hints == 1
    ensures r == NeedsImprovement <==> hints == 0
  {
    if hints >= 3 then Excellent
    else if hints >= 2 then Good
    else if hints >= 1 then Fair
    else NeedsImprovement
  }

  /** `security_risk` from the number of concerns. */
  function SecurityRisk(concerns: nat): (l: Level)
    ensures l != VeryHigh
    ensures l == High <==> concerns >= 2
    ensures l == Low <==> concerns == 0
  {
    if concerns >= 2 then High
    else if concerns == 1 then Medium
    else Low
  }

  /** Longer code never gets a lower level, and each level is reached at its threshold. */
  lemma ComplexityLevelMonotone(a: nat, b: nat)
    requires a <= b
    ensures LevelRank(ComplexityLevel(a)) <= LevelRank(ComplexityLevel(b))
    ensures LevelRank(ComplexityLevel(a)) == (if a > 100 then 3 else if a > 50 then 2 else if a > 20 then 1 else 0)
  {
  }

  /** More hints never lower the rating. */
  lemma ReliabilityMonotone(a: nat, b: nat)
    requires a <= b
    ensures ReliabilityRank(ReliabilityOf(a)) <= ReliabilityRank(ReliabilityOf(b))
    ensures ReliabilityRank(ReliabilityOf(a)) == if a >= 3 then 3 else a
  {
  }

  /** More concerns never lower the risk, and `VeryHigh` is never the risk. */
  lemma SecurityRiskMonotone(a: nat, b: nat)
    requires a <= b
    ensures LevelRank(SecurityRisk(a)) <= LevelRank(SecurityRisk(b))
    ensures LevelRank(SecurityRisk(a)) == if a >= 2 then 2 else a
  {
  }

  datatype FunctionAnalysis = FunctionAnalysis(
    functionName: string,
    indicators: Indicators,
    purposeHints: seq<Purpose>,
    errorHandling: seq<ErrorHint>,
    securityConcerns: seq<Concern>,
    estimatedPurpose: seq<Purpose>,
    complexityLevel: Level,
    reliability: Reliability,
    securityRisk: Level)

  /** The `analyze_function` result: the indicators, the hints and the three ratings, each
      rating agreeing with the evidence it is read from. */
  function AnalyzeFunction(code: string, name: string): (a: FunctionAnalysis)
    ensures a.functionName == name
    ensures a.estimatedPurpose != [] && (a.purposeHints != [] ==> a.estimatedPurpose == a.purposeHints)
    ensures a.complexityLevel == Low <==> a.indicators.lineCount <= 20
    ensures a.reliability == Excellent <==> |a.errorHandling| == 3
    ensures a.reliability == NeedsImprovement <==> a.errorHandling == []
    ensures a.securityRisk == High <==> |a.securityConcerns| == 2
    ensures a.securityRisk == Low <==> a.securityConcerns == []
  {
    var indicators := IndicatorsOf(code);
    var hints := PurposeHints(name);
    var errors := ErrorHandling(code);
    var concerns := SecurityConcerns(code);
    FunctionAnalysis(name, indicators, hints, errors, concerns, EstimatedPurpose(hints),
      ComplexityLevel(indicators.lineCount), ReliabilityOf(|errors|), SecurityRisk(|concerns|))
  }

  /**
   * With three possible hints and two possible concerns, the top rating needs every kind of
   * error handling and the high risk needs both concerns; a name without any purpose word
   * gets the general estimate.
   */
  lemma AnalysisFacts(code: string, name: string)
    ensures var a := AnalyzeFunction(code, name);
      && |a.errorHandling| <= 3 && |a.securityConcerns| <= 2
      && (a.reliability == Excellent <==>
            (Contains(code, "return -1") || Contains(code, "return NULL")) && Contains(code, "errno") && NullCheckMatch(code))
      && (a.reliability == NeedsImprovement <==>
            !Contains(code, "return -1") && !Contains(code, "return NULL") && !Contains(code, "errno") && !NullCheckMatch(code))
      && (a.securityRisk == High <==> UsesUnsafeString(code) && "malloc" in Words(code) && !Contains(code, "free"))
      && (a.securityRisk == Low <==> !UsesUnsafeString(code) && !("malloc" in Words(code) && !Contains(code, "free")))
      && (a.estimatedPurpose == [General] <==> forall p, w :: w in PurposeWords(p) ==> !Contains(Lower(name), w))
      && a.securityRisk != VeryHigh
  {
    HasNullCheckIff(code);
    PurposeHintsFacts(name);
    var hints := PurposeHints(name);
    if |hints| > 0 {
      assert hints[0] in hints;
      assert EstimatedPurpose(hints) != [General];
    } else {
      forall p, w | w in PurposeWords(p) ensures !Contains(Lower(name), w) {
        assert p !in hints;
      }
    }
  }

  // ---------------------------------------------------------------------------
  // refactor_function

  /** The suggestions, with the names the texts list as sets (the source joins a `set`). */
  datatype Suggestion = SplitFunction | SimplifyLogic | RenameVariables(names: set<string>)
    | AddErrorHandling | NameConstants(numbers: set<string>)

  /** `re.findall(r'\b[a-z]\b', code)`: the one-letter lower-case words. */
  function ShortNames(code: string): set<string> {
    set w | w in Words(code) && |w| == 1 && 'a' <= w[0] <= 'z'
  }

  /** `re.findall(r'\b\d{2,}\b', code)`: the all-digit words of two or more characters. */
  function MagicNumbers(code: string): set<string> {
    set w | w in Words(code) && |w| >= 2 && IsAllDigits(w)
  }

  /** The suggestion list from the five checks' outcomes, in the order the checks run. */
  function SuggestionsFrom(long: bool, complex: bool, names: set<string>, noErrorReturn: bool, numbers: set<string>): seq<Suggestion> {
    (if long then [SplitFunction] else [])
    + (if complex then [SimplifyLogic] else [])
    + (if names != {} then [RenameVariables(names)] else [])
    + (if noErrorReturn then [AddErrorHandling] else [])
    + (if numbers != {} then [NameConstants(numbers)] else [])
  }

  function Suggestions(code: string): seq<Suggestion> {
    SuggestionsFrom(|Split(code)| > 50, Complexity(code) > 15, ShortNames(code),
      !Contains(code, "return -1") && !Contains(code, "return NULL"), MagicNumbers(code))
  }

  /** What is in a concatenation of the five optional pieces. */
  lemma SuggestionsFromMembers(long: bool, complex: bool, names: set<string>, noErrorReturn: bool, numbers: set<string>, y: Suggestion)
    ensures y in SuggestionsFrom(long, complex, names, noErrorReturn, numbers) <==>
      (long && y == SplitFunction) || (complex && y == SimplifyLogic) || (names != {} && y == RenameVariables(names))
      || (noErrorReturn && y == AddErrorHandling) || (numbers != {} && y == NameConstants(numbers))
    ensures |SuggestionsFrom(long, complex, names, noErrorReturn, numbers)| <= 5
  {
    var p1: seq<Suggestion> := if long then [SplitFunction] else [];
    var p2: seq<Suggestion> := if complex then [SimplifyLogic] else [];
    var p3: seq<Suggestion> := if names != {} then [RenameVariables(names)] else [];
    var p4: seq<Suggestion> := if noErrorReturn then [AddErrorHandling] else [];
    var p5: seq<Suggestion> := if numbers != {} then [NameConstants(numbers)] else [];
    assert SuggestionsFrom(long, complex, names, noErrorReturn, numbers) == p1 + p2 + p3 + p4 + p5;
  }

  lemma SuggestionsFromFacts(long: bool, complex: bool, names: set<string>, noErrorReturn: bool, numbers: set<string>)
    ensures var s := SuggestionsFrom(long, complex, names, noErrorReturn, numbers);
      && (SplitFunction in s <==> long)
      && (SimplifyLogic in s <==> complex)
      && (AddErrorHandling in s <==> noErrorReturn)
      && (forall ns :: RenameVariables(ns) in s <==> ns == names && ns != {})
      && (forall ns :: NameConstants(ns) in s <==> ns == numbers && ns != {})
      && |s| <= 5
  {
    SuggestionsFromMembers(long, complex, names, noErrorReturn, numbers, SplitFunction);
    SuggestionsFromMembers(long, complex, names, noErrorReturn, numbers, SimplifyLogic);
    SuggestionsFromMembers(long, complex, names, noErrorReturn, numbers, AddErrorHandling);
    forall ns ensures RenameVariables(ns) in SuggestionsFrom(long, complex, names, noErrorReturn, numbers) <==> ns == names && ns != {} {
      SuggestionsFromMembers(long, complex, names, noErrorReturn, numbers, RenameVariables(ns));
    }
    forall ns ensures NameConstants(ns) in SuggestionsFrom(long, complex, names, noErrorReturn, numbers) <==> ns == numbers && ns != {} {
      SuggestionsFromMembers(long, complex, names, noErrorReturn, numbers, NameConstants(ns));
    }
  }

  /** The `improvement_score` for `k` suggestions: 15 points off per suggestion, never below 0
      (`max(0, 100 - 15 * k)`). */
  function ImprovementScore(k: nat): (r: int)
    ensures 0 <= r <= 100
    ensures r == 100 <==> k == 0
    ensures r == 0 <==> k >= 7
  {
    if 100 - 15 * k < 0 then 0 else 100 - 15 * k
  }

  /** The `priority` for `k` suggestions: high above three, medium above one, else low. */
  function Priority(k: nat): (l: Level)
    ensures l != VeryHigh
    ensures l == High <==> k >= 4
    ensures l == Low <==> k <= 1
  {
    if k > 3 then High else if k > 1 then Medium else Low
  }

  datatype Refactoring = Refactoring(functionName: string, suggestions: seq<Suggestion>, improvementScore: int, priority: Level)

  /** The `refactor_function` result: at most five suggestions, 15 points off per suggestion,
      and a priority that rises with their number. */
  function RefactorFunction(code: string, name: string): (r: Refactoring)
    ensures r.functionName == name
    ensures |r.suggestions| <= 5
    ensures r.improvementScore == 100 - 15 * |r.suggestions|
    ensures r.priority == High <==> |r.suggestions| > 3
    ensures r.priority == Low <==> |r.suggestions| <= 1
  {
    var s := Suggestions(code);
    SuggestionsIff(code);
    Refactoring(name, s, ImprovementScore(|s|), Priority(|s|))
  }

  /** Each suggestion is made exactly when its check fires, and names what the check found. */
  lemma SuggestionsIff(code: string)
    ensures SplitFunction in Suggestions(code) <==> |Split(code)| > 50
    ensures SimplifyLogic in Suggestions(code) <==> Complexity(code) > 15
    ensures AddErrorHandling in Suggestions(code) <==> !Contains(code, "return -1") && !Contains(code, "return NULL")
    ensures forall ns :: RenameVariables(ns) in Suggestions(code) <==> ns == ShortNames(code) && ns != {}
    ensures forall ns :: NameConstants(ns) in Suggestions(code) <==> ns == MagicNumbers(code) && ns != {}
    ensures |Suggestions(code)| <= 5
  {
    SuggestionsFromFacts(|Split(code)| > 50, Complexity(code) > 15, ShortNames(code),
      !Contains(code, "return -1") && !Contains(code, "return NULL"), MagicNumbers(code));
  }

  /** The short names are the one-letter lower-case maximal words of the code. */
  lemma ShortNamesIff(code: string, w: string)
    ensures w in ShortNames(code) <==> (exists p :: WordAt(code, p, w)) && |w| == 1 && 'a' <= w[0] <= 'z'
  {
    WordsIff(code, w);
  }

  /** At most five suggestions, so the score stays at 25 or more and never clips at 0. */
  lemma RefactorFacts(code: string, name: string)
    ensures var r := RefactorFunction(code, name);
      && |r.suggestions| <= 5
      && r.improvementScore == 100 - 15 * |r.suggestions|
      && 25 <= r.improvementScore <= 100
      && r.improvementScore % 5 == 0
  {
    SuggestionsIff(code);
    ScoreUnclipped(|Suggestions(code)|);
  }

  lemma ScoreUnclipped(k: nat)
    requires k <= 5
    ensures ImprovementScore(k) == 100 - 15 * k
    ensures 25 <= ImprovementScore(k) <= 100 && ImprovementScore(k) % 5 == 0
  {
  }

  /** More suggestions never lower the priority or raise the score. */
  lemma PriorityMonotone(a: nat, b: nat)
    requires a <= b
    ensures LevelRank(Priority(a)) <= LevelRank(Priority(b))
    ensures ImprovementScore(b) <= ImprovementScore(a)
    ensures Priority(a) != VeryHigh
  {
  }
}
