/**
 * The Python string built-ins the analysis engine is written with, on Dafny strings:
 * `s.split('\n')`, `'\n'.join(...)`, `s.strip()`, `s.lower()`, `p in s`, `s.startswith(p)`,
 * `s.count`-style non-overlapping search, `s.isdigit()` and `str(n)`.
 * Character classes are the ASCII part of Python's: `\w` is [A-Za-z0-9_] and `\s` /
 * `str.isspace()` is space, \t, \n, \v, \f, \r and the separators \x1c-\x1f.
 */
module Text {

  datatype Option<T> = None | Some(value: T)

  /** ASCII characters for which `str.isspace()` holds and that regex `\s` matches. */
  predicate IsSpace(c: char) {
    c == ' ' || c == '\t' || c == '\n' || c == '\r' || c == '\U{B}' || c == '\U{C}' || ('\U{1C}' <= c <= '\U{1F}')
  }

  /** Regex `\w`, and the character class `[a-zA-Z0-9_]`. */
  predicate IsWordChar(c: char) {
    ('a' <= c <= 'z') || ('A' <= c <= 'Z') || ('0' <= c <= '9') || c == '_'
  }

  predicate IsDigit(c: char) {
    '0' <= c <= '9'
  }

  /** `s.isdigit()`: non-empty and made of digits only. */
  predicate IsAllDigits(s: string) {
    |s| > 0 && forall i :: 0 <= i < |s| ==> IsDigit(s[i])
  }

  /** The first index at or after `k` holding `c`, or -1 (`s.find(c, k)`). */
  function IndexFrom(s: string, c: char, k: nat): (r: int)
    ensures r == -1 || (k <= r < |s| && s[r] == c)
    decreases |s| - k
  {
    if k >= |s| then -1
    else if s[k] == c then k
    else IndexFrom(s, c, k + 1)
  }

  /** No index before the one `IndexFrom` finds holds `c`. */
  lemma {:induction false} IndexFromFirst(s: string, c: char, k: nat)
    ensures forall i :: k <= i < |s| && (IndexFrom(s, c, k) == -1 || i < IndexFrom(s, c, k)) ==> s[i] != c
    decreases |s| - k
  {
    if k < |s| && s[k] != c {
      IndexFromFirst(s, c, k + 1);
    }
  }

  // ---------------------------------------------------------------------------
  // split('\n') and '\n'.join

  /** `s.split('\n')`: the pieces between newlines; there is always at least one. */
  function Split(s: string): (lines: seq<string>)
    ensures |lines| >= 1
    decreases |s|
  {
    if |s| == 0 then [""]
    else
      var rest := Split(s[1..]);
      if s[0] == '\n' then [""] + rest else [[s[0]] + rest[0]] + rest[1..]
  }

  /** `'\n'.join(lines)`. */
  function Join(lines: seq<string>): string
    decreases |lines|
  {
    if |lines| == 0 then ""
    else if |lines| == 1 then lines[0]
    else lines[0] + "\n" + Join(lines[1..])
  }

  predicate NoNewline(s: string) {
    forall i :: 0 <= i < |s| ==> s[i] != '\n'
  }

  lemma NoNewlineAppend(a: string, b: string)
    requires NoNewline(a) && NoNewline(b)
    ensures NoNewline(a + b)
  {
    assert forall i :: |a| <= i < |a + b| ==> (a + b)[i] == b[i - |a|];
  }

  /** Every line is free of newlines. */
  predicate AllNoNewline(lines: seq<string>) {
    forall k :: 0 <= k < |lines| ==> NoNewline(lines[k])
  }

  lemma AllNoNewlineAppend(a: seq<string>, b: seq<string>)
    requires AllNoNewline(a) && AllNoNewline(b)
    ensures AllNoNewline(a + b)
  {
    assert forall k :: |a| <= k < |a + b| ==> (a + b)[k] == b[k - |a|];
  }

  lemma {:induction false} SplitHasNoNewline(s: string)
    ensures forall k :: 0 <= k < |Split(s)| ==> NoNewline(Split(s)[k])
    decreases |s|
  {
    if |s| > 0 {
      SplitHasNoNewline(s[1..]);
    }
  }

  lemma JoinCons(x: string, rest: seq<string>)
    requires |rest| >= 1
    ensures Join([x] + rest) == x + "\n" + Join(rest)
  {
    assert ([x] + rest)[1..] == rest;
  }

  lemma {:induction false} JoinPrepend(c: char, x: string, rest: seq<string>)
    ensures Join([[c] + x] + rest) == [c] + Join([x] + rest)
  {
    if |rest| == 0 {
    } else {
      JoinCons([c] + x, rest);
      JoinCons(x, rest);
    }
  }

  /** Joining the pieces of a split gives the text back. */
  lemma {:induction false} JoinSplit(s: string)
    ensures Join(Split(s)) == s
    decreases |s|
  {
    if |s| > 0 {
      var rest := Split(s[1..]);
      JoinSplit(s[1..]);
      if s[0] == '\n' {
        JoinCons("", rest);
      } else {
        JoinPrepend(s[0], rest[0], rest[1..]);
        assert [rest[0]] + rest[1..] == rest;
      }
      assert [s[0]] + s[1..] == s;
    }
  }

  /** A piece without a newline, a newline, and more text split as expected. */
  lemma {:induction false} SplitCons(a: string, b: string)
    requires NoNewline(a)
    ensures Split(a + "\n" + b) == [a] + Split(b)
    decreases |a|
  {
    if |a| == 0 {
      assert a + "\n" + b == "\n" + b;
      assert ("\n" + b)[1..] == b;
    } else {
      SplitCons(a[1..], b);
      assert (a + "\n" + b)[1..] == a[1..] + "\n" + b;
      assert [a[0]] + a[1..] == a;
    }
  }

  lemma {:induction false} SplitSingle(a: string)
    requires NoNewline(a)
    ensures Split(a) == [a]
    decreases |a|
  {
    if |a| > 0 {
      SplitSingle(a[1..]);
      assert [a[0]] + a[1..] == a;
    }
  }

  /** Splitting the join of newline-free lines gives the lines back. */
  lemma {:induction false} SplitJoin(lines: seq<string>)
    requires |lines| >= 1
    requires forall k :: 0 <= k < |lines| ==> NoNewline(lines[k])
    ensures Split(Join(lines)) == lines
    decreases |lines|
  {
    if |lines| == 1 {
      SplitSingle(lines[0]);
    } else {
      SplitJoin(lines[1..]);
      SplitCons(lines[0], Join(lines[1..]));
      assert [lines[0]] + lines[1..] == lines;
    }
  }

  // ---------------------------------------------------------------------------
  // strip()

  /** The first index at or after `k` that is not white space. */
  function SkipSpaces(s: string, k: nat): (r: nat)
    requires k <= |s|
    ensures k <= r <= |s|
    decreases |s| - k
  {
    if k < |s| && IsSpace(s[k]) then SkipSpaces(s, k + 1) else k
  }

  /** The end of `s[a..e]` once trailing white space is cut off. */
  function BackSpaces(s: string, a: nat, e: nat): (r: nat)
    requires a <= e <= |s|
    ensures a <= r <= e
    decreases e - a
  {
    if e > a && IsSpace(s[e - 1]) then BackSpaces(s, a, e - 1) else e
  }

  function StripStart(s: string): nat {
    SkipSpaces(s, 0)
  }

  function StripEnd(s: string): (b: nat)
    ensures StripStart(s) <= b <= |s|
  {
    BackSpaces(s, StripStart(s), |s|)
  }

  /** `s.strip()`. */
  function Strip(s: string): string {
    s[StripStart(s)..StripEnd(s)]
  }

  lemma {:induction false} SkipSpacesFacts(s: string, k: nat)
    requires k <= |s|
    ensures forall i :: k <= i < SkipSpaces(s, k) ==> IsSpace(s[i])
    ensures SkipSpaces(s, k) == |s| || !IsSpace(s[SkipSpaces(s, k)])
    decreases |s| - k
  {
    if k < |s| && IsSpace(s[k]) {
      SkipSpacesFacts(s, k + 1);
    }
  }

  lemma {:induction false} BackSpacesFacts(s: string, a: nat, e: nat)
    requires a <= e <= |s|
    ensures forall i :: BackSpaces(s, a, e) <= i < e ==> IsSpace(s[i])
    ensures BackSpaces(s, a, e) == a || !IsSpace(s[BackSpaces(s, a, e) - 1])
    decreases e - a
  {
    if e > a && IsSpace(s[e - 1]) {
      BackSpacesFacts(s, a, e - 1);
    }
  }

  /**
   * What `strip()` keeps is the slice between the first and the last character that is not
   * white space; everything cut off either side is white space.
   */
  lemma StripFacts(s: string)
    ensures forall i :: 0 <= i < StripStart(s) ==> IsSpace(s[i])
    ensures forall i :: StripEnd(s) <= i < |s| ==> IsSpace(s[i])
    ensures StripStart(s) < StripEnd(s) ==> !IsSpace(s[StripStart(s)]) && !IsSpace(s[StripEnd(s) - 1])
    ensures StripStart(s) == StripEnd(s) ==> forall i :: 0 <= i < |s| ==> IsSpace(s[i])
  {
    SkipSpacesFacts(s, 0);
    BackSpacesFacts(s, StripStart(s), |s|);
  }

  // ---------------------------------------------------------------------------
  // lower(), `in`, startswith, non-overlapping counts

  function LowerChar(c: char): char {
    if 'A' <= c <= 'Z' then (c as int + 32) as char else c
  }

  /** `s.lower()` on ASCII letters. */
  function Lower(s: string): (r: string)
    ensures |r| == |s|
  {
    seq(|s|, i requires 0 <= i < |s| => LowerChar(s[i]))
  }

  predicate OccursAt(s: string, p: string, i: int) {
    0 <= i && i + |p| <= |s| && s[i..i + |p|] == p
  }

  predicate ContainsFrom(s: string, p: string, k: nat)
    decreases |s| - k
  {
    k + |p| <= |s| && (s[k..k + |p|] == p || ContainsFrom(s, p, k + 1))
  }

  /** `p in s` for strings: `p` occurs somewhere in `s`. */
  predicate Contains(s: string, p: string) {
    ContainsFrom(s, p, 0)
  }

  lemma {:induction false} ContainsFromIff(s: string, p: string, k: nat)
    ensures ContainsFrom(s, p, k) <==> exists i :: k <= i && OccursAt(s, p, i)
    decreases |s| - k
  {
    if k + |p| <= |s| {
      ContainsFromIff(s, p, k + 1);
      if s[k..k + |p|] == p {
        assert OccursAt(s, p, k);
      } else {
        assert forall i :: k <= i && OccursAt(s, p, i) ==> k + 1 <= i;
      }
    } else {
      assert forall i :: k <= i ==> !OccursAt(s, p, i);
    }
  }

  /** `p in s` holds exactly when `p` occurs at some position of `s`. */
  lemma ContainsIff(s: string, p: string)
    ensures Contains(s, p) <==> exists i :: OccursAt(s, p, i)
  {
    ContainsFromIff(s, p, 0);
  }

  lemma ContainsAt(s: string, p: string, i: int)
    requires OccursAt(s, p, i)
    ensures Contains(s, p)
  {
    ContainsIff(s, p);
  }

  /** `any(w in n for w in ws)`: some word of the list occurs in `n`. */
  predicate HitsAny(ws: seq<string>, n: string) {
    |ws| > 0 && (Contains(n, ws[0]) || HitsAny(ws[1..], n))
  }

  lemma {:induction false} HitsAnyIff(ws: seq<string>, n: string)
    ensures HitsAny(ws, n) <==> exists w :: w in ws && Contains(n, w)
  {
    if |ws| > 0 {
      HitsAnyIff(ws[1..], n);
      assert forall w :: w in ws <==> w == ws[0] || w in ws[1..];
    }
  }

  /** `s.startswith(p)`. */
  predicate StartsWith(s: string, p: string) {
    |p| <= |s| && s[..|p|] == p
  }

  /** `s.endswith(p)`. */
  predicate EndsWith(s: string, p: string) {
    |p| <= |s| && s[|s| - |p|..] == p
  }

  /** Number of non-overlapping, left-to-right occurrences of `p` from `k` on (`len(re.findall(p, s))`). */
  function CountFrom(s: string, p: string, k: nat): (n: nat)
    requires |p| > 0
    ensures n > 0 ==> ContainsFrom(s, p, k)
    decreases |s| - k
  {
    if k + |p| > |s| then 0
    else if s[k..k + |p|] == p then 1 + CountFrom(s, p, k + |p|)
    else CountFrom(s, p, k + 1)
  }

  function CountOccurrences(s: string, p: string): nat
    requires |p| > 0
  {
    CountFrom(s, p, 0)
  }

  // ---------------------------------------------------------------------------
  // str(n)

  function DigitChar(d: nat): char
    requires d < 10
  {
    "0123456789"[d]
  }

  /** `str(n)` for a natural number. */
  function NatToString(n: nat): (r: string)
    ensures |r| >= 1
  {
    if n < 10 then [DigitChar(n)] else NatToString(n / 10) + [DigitChar(n % 10)]
  }

  /** `str(n)` is made of decimal digits. */
  lemma {:induction false} NatToStringDigits(n: nat)
    ensures IsAllDigits(NatToString(n))
  {
    if n >= 10 {
      NatToStringDigits(n / 10);
    }
  }

  // ---------------------------------------------------------------------------
  // Sequences

  /** Number of occurrences of `x` in `s`. */
  function CountIn<T(==)>(s: seq<T>, x: T): (n: nat)
    ensures n <= |s|
    ensures n > 0 <==> x in s
  {
    if |s| == 0 then 0 else (if s[0] == x then 1 else 0) + CountIn(s[1..], x)
  }

  predicate NoDuplicates<T(==)>(s: seq<T>) {
    forall i, j :: 0 <= i < j < |s| ==> s[i] != s[j]
  }

  /** `list(set(s))`, keeping each element's first occurrence. */
  function Dedup<T(==)>(s: seq<T>): (r: seq<T>)
    ensures |r| <= |s|
  {
    if |s| == 0 then []
    else
      var r := Dedup(s[..|s| - 1]);
      if s[|s| - 1] in r then r else r + [s[|s| - 1]]
  }

  /** `Dedup` keeps every element and drops every repeat. */
  lemma {:induction false} DedupFacts<T>(s: seq<T>)
    ensures NoDuplicates(Dedup(s))
    ensures forall x :: x in Dedup(s) <==> x in s
  {
    if |s| > 0 {
      var init := s[..|s| - 1];
      DedupFacts(init);
      assert s == init + [s[|s| - 1]];
    }
  }

  /** Extending the input by one element extends `Dedup` by it exactly when it is new. */
  lemma DedupSnoc<T>(s: seq<T>, k: nat)
    requires k < |s|
    ensures Dedup(s[..k + 1]) == if s[k] in Dedup(s[..k]) then Dedup(s[..k]) else Dedup(s[..k]) + [s[k]]
  {
    assert s[..k + 1][..k] == s[..k];
  }

  /** In a sequence without repeats an element occurs at most once. */
  lemma {:induction false} CountInNoDuplicates<T>(s: seq<T>, x: T)
    requires NoDuplicates(s)
    ensures CountIn(s, x) == if x in s then 1 else 0
  {
    if |s| > 0 {
      assert NoDuplicates(s[1..]) by {
        forall i, j | 0 <= i < j < |s| - 1 ensures s[1..][i] != s[1..][j] {
          assert s[1..][i] == s[i + 1] && s[1..][j] == s[j + 1];
        }
      }
      CountInNoDuplicates(s[1..], x);
      if s[0] == x {
        assert x !in s[1..] by {
          forall j | 0 <= j < |s| - 1 ensures s[1..][j] != x {
            assert s[1..][j] == s[j + 1];
          }
        }
      }
      assert x in s <==> s[0] == x || x in s[1..];
    }
  }

  lemma {:induction false} CountInMultiset<T>(s: seq<T>, x: T)
    ensures CountIn(s, x) == multiset(s)[x]
  {
    if |s| > 0 {
      CountInMultiset(s[1..], x);
      assert s == [s[0]] + s[1..];
    }
  }

  /** Two positions holding the same element make it occur at least twice. */
  lemma {:induction false} CountInTwice<T>(s: seq<T>, i: nat, j: nat)
    requires i < j < |s| && s[i] == s[j]
    ensures CountIn(s, s[i]) >= 2
  {
    if i == 0 {
      assert s[1..][j - 1] == s[j];
    } else {
      assert s[1..][i - 1] == s[i] && s[1..][j - 1] == s[j];
      CountInTwice(s[1..], i - 1, j - 1);
    }
  }

  /** A permutation of a sequence without repeats has none either. */
  lemma PermutationNoDuplicates<T>(a: seq<T>, b: seq<T>)
    requires multiset(a) == multiset(b) && NoDuplicates(a)
    ensures NoDuplicates(b)
  {
    forall i, j | 0 <= i < j < |b| ensures b[i] != b[j] {
      if b[i] == b[j] {
        CountInTwice(b, i, j);
        CountInMultiset(b, b[i]);
        CountInMultiset(a, b[i]);
        CountInNoDuplicates(a, b[i]);
        assert false;
      }
    }
  }

  /** `s[:n]` for an integer `n` as Python slices it: a negative `n` drops the last `-n` items. */
  function PyPrefix<T>(s: seq<T>, n: int): (r: seq<T>)
    ensures 0 <= n ==> |r| == if n < |s| then n else |s|
    ensures n < 0 ==> |r| == if |s| + n < 0 then 0 else |s| + n
    ensures r == s[..|r|]
  {
    if n >= 0 then (if n < |s| then s[..n] else s)
    else (if |s| + n < 0 then [] else s[..|s| + n])
  }
}
