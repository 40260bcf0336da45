/**
 * Scanners that stand for the regular expressions the engine applies to C text.  Each is
 * written over maximal runs of word characters, because every pattern involved anchors on
 * them:
 *   - `\bkw\b` (a keyword of word characters) matches exactly the maximal words equal to `kw`;
 *   - `\b(\w+)\s*\(` matches exactly the maximal words followed by white space and `(`, and
 *     `\w+\s*\(` has the same number of matches, since a suffix of a word has the same follow;
 *   - `\b[a-z]\b` matches the one-letter lower-case words and `\b\d{2,}\b` the all-digit words
 *     of two or more characters.
 */
module Lexer {
  import opened Text

  /** Index just past the run of word characters that starts at `k`. */
  function WordEnd(s: string, k: nat): (e: nat)
    requires k <= |s|
    ensures k <= e <= |s|
    decreases |s| - k
  {
    if k < |s| && IsWordChar(s[k]) then WordEnd(s, k + 1) else k
  }

  /** The run from `k` to `WordEnd(s, k)` is made of word characters and cannot be extended. */
  lemma {:induction false} WordEndFacts(s: string, k: nat)
    requires k <= |s|
    ensures forall i :: k <= i < WordEnd(s, k) ==> IsWordChar(s[i])
    ensures WordEnd(s, k) == |s| || !IsWordChar(s[WordEnd(s, k)])
    decreases |s| - k
  {
    if k < |s| && IsWordChar(s[k]) {
      WordEndFacts(s, k + 1);
    }
  }

  /** A run of word characters that cannot be extended ends where `WordEnd` says. */
  lemma {:induction false} WordEndAt(s: string, a: nat, b: nat)
    requires a <= b <= |s|
    requires forall i :: a <= i < b ==> IsWordChar(s[i])
    requires b == |s| || !IsWordChar(s[b])
    ensures WordEnd(s, a) == b
    decreases b - a
  {
    if a < b {
      WordEndAt(s, a + 1, b);
    }
  }

  /** `k` begins a maximal run of word characters (the regex `\b\w`). */
  predicate IsWordStart(s: string, k: int) {
    0 <= k < |s| && IsWordChar(s[k]) && (k == 0 || !IsWordChar(s[k - 1]))
  }

  /** `k` does not cut a run of word characters in two. */
  predicate AtBoundary(s: string, k: nat) {
    k == 0 || k >= |s| || !IsWordChar(s[k - 1]) || !IsWordChar(s[k])
  }

  /** `w` is the maximal word that starts at `p`. */
  predicate WordAt(s: string, p: int, w: string) {
    IsWordStart(s, p) && w == s[p..WordEnd(s, p)]
  }

  /** From `k` on: white space, then `(` (the regex `\s*\(`). */
  predicate ParenFollows(s: string, k: nat)
    decreases |s| - k
  {
    k < |s| && (s[k] == '(' || (IsSpace(s[k]) && ParenFollows(s, k + 1)))
  }

  /** `w` is the maximal word at `p` and an opening parenthesis follows it. */
  predicate CallAt(s: string, p: int, w: string) {
    WordAt(s, p, w) && ParenFollows(s, WordEnd(s, p))
  }

  /** The maximal words of `s[k..]`, left to right. */
  function WordsFrom(s: string, k: nat): seq<string>
    requires k <= |s|
    decreases |s| - k
  {
    if k == |s| then []
    else if IsWordChar(s[k]) then
      var e := WordEnd(s, k);
      [s[k..e]] + WordsFrom(s, e)
    else WordsFrom(s, k + 1)
  }

  function Words(s: string): seq<string> {
    WordsFrom(s, 0)
  }

  /** The words of `s[k..]` that an opening parenthesis follows: what `\b(\w+)\s*\(` finds. */
  function CallWordsFrom(s: string, k: nat): seq<string>
    requires k <= |s|
    decreases |s| - k
  {
    if k == |s| then []
    else if IsWordChar(s[k]) then
      var e := WordEnd(s, k);
      (if ParenFollows(s, e) then [s[k..e]] else []) + CallWordsFrom(s, e)
    else CallWordsFrom(s, k + 1)
  }

  function CallWords(s: string): seq<string> {
    CallWordsFrom(s, 0)
  }

  /** `len(re.findall(r'\bkw\b', s))` for a keyword `kw`. */
  function CountWord(s: string, kw: string): nat {
    CountIn(Words(s), kw)
  }

  lemma InsideWordIsNoStart(s: string, k: nat, p: int)
    requires k < |s| && IsWordChar(s[k])
    requires k < p < WordEnd(s, k)
    ensures !IsWordStart(s, p)
  {
    WordEndFacts(s, k);
  }

  lemma {:induction false} WordsFromIff(s: string, k: nat, w: string)
    requires k <= |s| && AtBoundary(s, k)
    ensures w in WordsFrom(s, k) <==> exists p :: k <= p && WordAt(s, p, w)
    decreases |s| - k
  {
    if k == |s| {
      assert forall p :: k <= p ==> !WordAt(s, p, w);
    } else if IsWordChar(s[k]) {
      var e := WordEnd(s, k);
      WordEndFacts(s, k);
      WordsFromIff(s, e, w);
      assert WordAt(s, k, s[k..e]);
      forall p | k < p < e ensures !WordAt(s, p, w) {
        InsideWordIsNoStart(s, k, p);
      }
    } else {
      WordsFromIff(s, k + 1, w);
      assert !WordAt(s, k, w);
    }
  }

  /** The words are exactly the maximal runs of word characters. */
  lemma WordsIff(s: string, w: string)
    ensures w in Words(s) <==> exists p :: WordAt(s, p, w)
  {
    WordsFromIff(s, 0, w);
  }

  lemma {:induction false} CallWordsFromIff(s: string, k: nat, w: string)
    requires k <= |s| && AtBoundary(s, k)
    ensures w in CallWordsFrom(s, k) <==> exists p :: k <= p && CallAt(s, p, w)
    decreases |s| - k
  {
    if k == |s| {
      assert forall p :: k <= p ==> !CallAt(s, p, w);
    } else if IsWordChar(s[k]) {
      var e := WordEnd(s, k);
      WordEndFacts(s, k);
      CallWordsFromIff(s, e, w);
      if ParenFollows(s, e) {
        assert CallAt(s, k, s[k..e]);
      }
      forall p | k < p < e ensures !CallAt(s, p, w) {
        InsideWordIsNoStart(s, k, p);
      }
    } else {
      CallWordsFromIff(s, k + 1, w);
      assert !CallAt(s, k, w);
    }
  }

  /** The call words are exactly the maximal words followed by white space and `(`. */
  lemma CallWordsIff(s: string, w: string)
    ensures w in CallWords(s) <==> exists p :: CallAt(s, p, w)
  {
    CallWordsFromIff(s, 0, w);
  }
}
