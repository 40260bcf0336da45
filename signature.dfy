/**
 * The two signature patterns of `CodeAnalyzer` (src/core/analyzer.py), as a hand-written
 * matcher over a stripped line.
 *
 * Both patterns end in `(\w+)\s*\(([^)]*)\)\s*$` and put only word characters, white space
 * and `*` before the name, so whenever either matches, the parameter list opens at the
 * FIRST `(` of the line, the first `)` after it is followed by white space only, and the
 * captured name is the maximal word just before that `(` (white space allowed between).
 * What remains is the part of the line before the name, the declarator prefix:
 *   - the precise pattern accepts it when it reads
 *       [static|extern|inline] [const|volatile] word *...* [__cdecl|__stdcall|__fastcall]
 *     with the stars optionally separated by white space, and it ends in white space;
 *   - the fallback `(?:\w+\s+)*` accepts it when it holds only words and white space.
 */
module Signature {
  import opened Text
  import opened Lexer

  /** Where the name sits in a line that has the shape of a declarator. */
  datatype Declarator = Declarator(nameStart: nat, nameEnd: nat)

  /** Steps back over white space ending at `e`. */
  function BackOverSpaces(s: string, e: nat): (r: nat)
    requires e <= |s|
    ensures r <= e
  {
    if e > 0 && IsSpace(s[e - 1]) then BackOverSpaces(s, e - 1) else e
  }

  /** Steps back over word characters ending at `e`. */
  function BackOverWord(s: string, e: nat): (r: nat)
    requires e <= |s|
    ensures r <= e
  {
    if e > 0 && IsWordChar(s[e - 1]) then BackOverWord(s, e - 1) else e
  }

  lemma {:induction false} BackOverSpacesFacts(s: string, e: nat)
    requires e <= |s|
    ensures forall i :: BackOverSpaces(s, e) <= i < e ==> IsSpace(s[i])
    ensures BackOverSpaces(s, e) == 0 || !IsSpace(s[BackOverSpaces(s, e) - 1])
  {
    if e > 0 && IsSpace(s[e - 1]) {
      BackOverSpacesFacts(s, e - 1);
    }
  }

  lemma {:induction false} BackOverWordFacts(s: string, e: nat)
    requires e <= |s|
    ensures forall i :: BackOverWord(s, e) <= i < e ==> IsWordChar(s[i])
    ensures BackOverWord(s, e) == 0 || !IsWordChar(s[BackOverWord(s, e) - 1])
  {
    if e > 0 && IsWordChar(s[e - 1]) {
      BackOverWordFacts(s, e - 1);
    }
  }

  /** From `k` to the end of the line there is only white space. */
  predicate SpacesToEnd(s: string, k: nat) {
    forall i :: k <= i < |s| ==> IsSpace(s[i])
  }

  /**
   * The common tail of both patterns: `name \s* ( params ) \s* $` with `params` free of `)`.
   * The result locates the name; the parameter list is the one opened by the first `(`.
   */
  function FindDeclarator(line: string): (r: Option<Declarator>)
    ensures r.Some? ==> r.value.nameStart < r.value.nameEnd <= |line|
  {
    var open := IndexFrom(line, '(', 0);
    if open < 0 then None
    else
      var close := IndexFrom(line, ')', open + 1);
      if close < 0 || !SpacesToEnd(line, close + 1) then None
      else
        var nameEnd := BackOverSpaces(line, open);
        var nameStart := BackOverWord(line, nameEnd);
        if nameStart == nameEnd then None else Some(Declarator(nameStart, nameEnd))
  }

  /**
   * A located name is a maximal word that white space and an opening parenthesis follow,
   * which is the first `(` of the line; the first `)` after it ends the line but for white
   * space.
   */
  lemma DeclaratorShape(line: string)
    requires FindDeclarator(line).Some?
    ensures var d := FindDeclarator(line).value;
            && WordEnd(line, d.nameStart) == d.nameEnd
            && IsWordStart(line, d.nameStart)
            && ParenFollows(line, d.nameEnd)
            && CallAt(line, d.nameStart, line[d.nameStart..d.nameEnd])
  {
    var open := IndexFrom(line, '(', 0);
    var nameEnd := BackOverSpaces(line, open);
    var nameStart := BackOverWord(line, nameEnd);
    BackOverSpacesFacts(line, open);
    BackOverWordFacts(line, nameEnd);
    assert nameEnd == |line| || !IsWordChar(line[nameEnd]) by {
      if nameEnd < open {
        assert IsSpace(line[nameEnd]);
      }
    }
    WordEndAt(line, nameStart, nameEnd);
    SpacesThenParen(line, nameEnd, open);
  }

  lemma {:induction false} SpacesThenParen(s: string, k: nat, open: nat)
    requires k <= open < |s| && s[open] == '('
    requires forall i :: k <= i < open ==> IsSpace(s[i])
    ensures ParenFollows(s, k)
    decreases open - k
  {
    if k < open {
      SpacesThenParen(s, k + 1, open);
    }
  }

  // ---------------------------------------------------------------------------
  // The declarator prefix, as white-space separated tokens

  function TokenEnd(s: string, k: nat): (e: nat)
    requires k <= |s|
    ensures k <= e <= |s|
    decreases |s| - k
  {
    if k < |s| && !IsSpace(s[k]) then TokenEnd(s, k + 1) else k
  }

  function TokensFrom(s: string, k: nat): seq<string>
    requires k <= |s|
    decreases |s| - k
  {
    if k == |s| then []
    else if IsSpace(s[k]) then TokensFrom(s, k + 1)
    else
      var e := TokenEnd(s, k);
      [s[k..e]] + TokensFrom(s, e)
  }

  /** The maximal runs of non-white-space characters. */
  function Tokens(s: string): seq<string> {
    TokensFrom(s, 0)
  }

  predicate IsStorageClass(t: string) {
    t == "static" || t == "extern" || t == "inline"
  }

  predicate IsQualifier(t: string) {
    t == "const" || t == "volatile"
  }

  predicate IsCallingConvention(t: string) {
    t == "__cdecl" || t == "__stdcall" || t == "__fastcall"
  }

  /** A return-type token: a word, then possibly stars (`\w+` followed by `*`s). */
  predicate IsTypeHead(t: string) {
    |t| > 0 && IsWordChar(t[0]) && forall i :: WordEnd(t, 0) <= i < |t| ==> t[i] == '*'
  }

  predicate IsStars(t: string) {
    |t| > 0 && forall i :: 0 <= i < |t| ==> t[i] == '*'
  }

  /** After the type word: more stars, then at most a calling convention as the last token. */
  predicate TypeTail(ts: seq<string>)
    decreases |ts|
  {
    || |ts| == 0
    || (|ts| == 1 && IsCallingConvention(ts[0]))
    || (IsStars(ts[0]) && TypeTail(ts[1..]))
  }

  predicate FromType(ts: seq<string>) {
    |ts| > 0 && IsTypeHead(ts[0]) && TypeTail(ts[1..])
  }

  predicate FromQualifier(ts: seq<string>) {
    (|ts| > 0 && IsQualifier(ts[0]) && FromType(ts[1..])) || FromType(ts)
  }

  /** The token grammar of the precise pattern's prefix; each optional part may be absent. */
  predicate PreciseTokens(ts: seq<string>) {
    (|ts| > 0 && IsStorageClass(ts[0]) && FromQualifier(ts[1..])) || FromQualifier(ts)
  }

  /** The prefix the precise pattern accepts; it must end in the `\s+` before the name. */
  predicate PrecisePrefix(p: string) {
    |p| > 0 && IsSpace(p[|p| - 1]) && PreciseTokens(Tokens(p))
  }

  /**
   * The prefix `^\s*(?:\w+\s+)*` accepts: words and white space only.  (Its last character,
   * if any, is white space, because the name before the parenthesis is a maximal word.)
   */
  predicate SimplePrefix(p: string) {
    forall i :: 0 <= i < |p| ==> IsWordChar(p[i]) || IsSpace(p[i])
  }

  /** Group 4 of `function_pattern.match(line)`, when the precise pattern matches. */
  function PreciseMatch(line: string): Option<string> {
    match FindDeclarator(line)
    case None => None
    case Some(d) =>
      if PrecisePrefix(line[..d.nameStart]) then Some(line[d.nameStart..d.nameEnd]) else None
  }

  /** Group 1 of the fallback `^\s*(?:\w+\s+)*(\w+)\s*\([^)]*\)\s*$`, when it matches. */
  function SimpleMatch(line: string): Option<string> {
    match FindDeclarator(line)
    case None => None
    case Some(d) =>
      if SimplePrefix(line[..d.nameStart]) then Some(line[d.nameStart..d.nameEnd]) else None
  }

  /** The name the precise pattern takes, else the fallback's. */
  function SignatureName(line: string): (r: Option<string>)
    ensures r.Some? <==> PreciseMatch(line).Some? || SimpleMatch(line).Some?
  {
    match PreciseMatch(line)
    case Some(n) => Some(n)
    case None => SimpleMatch(line)
  }

  /** The name the patterns capture is a word of the line that an opening parenthesis follows. */
  lemma SignatureNameIsCall(line: string)
    requires SignatureName(line).Some?
    ensures exists p :: CallAt(line, p, SignatureName(line).value)
  {
    DeclaratorShape(line);
  }
}
