/**
 * The inputs of the unit tests of `CodeAnalyzer` (tests/unit/test_analyzer.py), with what
 * the model says about them.
 */
module AnalyzerCases {
  import opened Text
  import opened Lexer
  import opened Signature
  import opened Analyzer

  /** A statement calling `function_a`, then a statement calling `function_b`. */
  const CallsCode: string := "\n" + "int result = " + "function_a(x);\n" + "function_b(y, z);\n"

  /** Two nested `if`s around a `for`. */
  const BranchyCode: string :=
    "\n" + "if (condition) {\n" + "    for (int i = 0; i < 10; i++) {\n" + "        if (i % 2 == 0) {\n"
    + "            continue;\n" + "        }\n" + "    }\n" + "}\n"

  /** `function_a` is reported. */
  lemma CallsCodeFirst()
    ensures "function_a" in CallNames(CallsCode)
  {
    var c := CallsCode;
    WordEndAt(c, 14, 24);
    assert CallAt(c, 14, "function_a");
    CallNamesIff(c, "function_a");
  }

  /** `function_b` is reported. */
  lemma CallsCodeSecond()
    ensures "function_b" in CallNames(CallsCode)
  {
    var c := CallsCode;
    WordEndAt(c, 29, 39);
    assert CallAt(c, 29, "function_b");
    CallNamesIff(c, "function_b");
  }

  /** The branches raise the score above the base of one. */
  lemma BranchyCodeComplexity()
    ensures Complexity(BranchyCode) > 1
  {
    var c := BranchyCode;
    WordEndAt(c, 1, 3);
    assert WordAt(c, 1, "if");
    ComplexityCountsKeyword(c, "if");
  }

  // ---------------------------------------------------------------------------
  // One two-parameter function

  const SignatureLine: string := "int " + "add" + "(int a, int b)"
  const BodyLine: string := "    return a + b;"

  /** The lines of the function `add`, with the blank lines around it. */
  const AddLines: seq<string> := ["", SignatureLine, "{", BodyLine, "}", ""]

  const AddCode: string := "\n" + (SignatureLine + "\n" + ("{" + "\n" + (BodyLine + "\n" + ("}" + "\n"))))

  /** A line with no white space at either end strips to itself. */
  lemma StripKeeps(s: string)
    requires |s| > 0 && !IsSpace(s[0]) && !IsSpace(s[|s| - 1])
    ensures Strip(s) == s
  {
  }

  lemma AddCodeJoin()
    ensures Join(AddLines) == AddCode
  {
    var j4 := "}" + "\n";
    JoinCons("}", [""]);
    assert Join(["}", ""]) == j4;
    var j3 := BodyLine + "\n" + j4;
    JoinCons(BodyLine, ["}", ""]);
    assert Join([BodyLine, "}", ""]) == j3;
    var j2 := "{" + "\n" + j3;
    JoinCons("{", [BodyLine, "}", ""]);
    assert Join(["{", BodyLine, "}", ""]) == j2;
    var j1 := SignatureLine + "\n" + j2;
    JoinCons(SignatureLine, ["{", BodyLine, "}", ""]);
    assert Join(AddLines[1..]) == j1;
    JoinCons("", AddLines[1..]);
    assert "" + "\n" + j1 == "\n" + j1;
  }

  lemma AddLinesSingle()
    ensures forall k :: 0 <= k < |AddLines| ==> NoNewline(AddLines[k])
  {
    assert NoNewline(SignatureLine);
    assert NoNewline(BodyLine);
  }

  /** The text splits into the six lines. */
  lemma AddCodeLines()
    ensures Split(AddCode) == AddLines
  {
    AddCodeJoin();
    AddLinesSingle();
    SplitJoin(AddLines);
  }

  /** `IndexFrom` finds the first `c` from `k` on. */
  lemma {:induction false} IndexFromAt(s: string, c: char, k: nat, r: nat)
    requires k <= r < |s| && s[r] == c
    requires forall i :: k <= i < r ==> s[i] != c
    ensures IndexFrom(s, c, k) == r
    decreases r - k
  {
    if k < r {
      IndexFromAt(s, c, k + 1, r);
    }
  }

  /** The return type `int` is the whole declarator prefix. */
  lemma IntPrefix()
    ensures PrecisePrefix("int ")
  {
    var p := "int ";
    assert TokenEnd(p, 3) == 3;
    assert TokenEnd(p, 2) == 3;
    assert TokenEnd(p, 1) == 3;
    assert TokenEnd(p, 0) == 3;
    assert TokensFrom(p, 4) == [];
    assert TokensFrom(p, 3) == [];
    assert p[0..3] == "int";
    assert TokensFrom(p, 0) == ["int"] + TokensFrom(p, 3);
    assert IsTypeHead("int") by {
      assert WordEnd("int", 3) == 3;
      assert WordEnd("int", 0) == 3;
    }
  }

  /** The name sits between the last space and the first parenthesis. */
  lemma AddDeclarator()
    ensures FindDeclarator(SignatureLine) == Some(Declarator(4, 7))
  {
    var line := SignatureLine;
    IndexFromAt(line, '(', 0, 7);
    IndexFromAt(line, ')', 8, 20);
    assert BackOverSpaces(line, 7) == 7;
    assert BackOverWord(line, 4) == 4;
    assert BackOverWord(line, 5) == 4;
    assert BackOverWord(line, 6) == 4;
    assert BackOverWord(line, 7) == 4;
  }

  /** The precise pattern captures `add`. */
  lemma AddSignature()
    ensures SignatureName(SignatureLine) == Some("add")
  {
    var line := SignatureLine;
    AddDeclarator();
    assert line[..4] == "int ";
    IntPrefix();
    assert line[4..7] == "add";
  }

  /** The blank lines declare nothing. */
  lemma BlankNames()
    ensures CandidateName(AddLines, 0) == None
    ensures CandidateName(AddLines, 5) == None
  {
    assert Strip("") == "";
  }

  /** The signature line declares `add`. */
  lemma SignatureNameOfAdd()
    ensures CandidateName(AddLines, 1) == Some("add")
  {
    StripKeeps(SignatureLine);
    var line := SignatureLine;
    assert line[..2] != "//" && line[..2] != "/*" && line[..1] != "#" by {
      assert line[0] == 'i';
    }
    assert !IsSkippedLine(line);
    StripKeeps("{");
    assert OpensBody(AddLines, 1);
    AddSignature();
  }

  /** The body opened after the signature closes on line 5. */
  lemma AddClose()
    ensures CloseAfter(AddLines, 1) == Some(5)
  {
    ScanNoBraces(BodyLine, 1);
    assert ScanLine("}", 1) == Closed;
    assert FindClose(AddLines, 4, 1) == Some(5);
  }

  /** The test `test_extract_functions_simple`: one record, named `add`, on lines 2 to 5. */
  lemma AddExtracted()
    ensures |FunctionsIn(AddCode)| == 1
    ensures FunctionsIn(AddCode)[0].name == "add"
    ensures FunctionsIn(AddCode)[0].startLine == 2 && FunctionsIn(AddCode)[0].endLine == 5
  {
    AddCodeLines();
    var lines := AddLines;
    var names, closes := NamesOf(lines), ClosesOf(lines);
    BlankNames();
    SignatureNameOfAdd();
    AddClose();
    LineView(lines, 0);
    LineView(lines, 1);
    LineView(lines, 5);
    assert ScanSites(names, closes, 6) == [];
    assert ScanSites(names, closes, 5) == [];
    assert ScanSites(names, closes, 1) == [Site("add", 1, 5)];
    assert SitesOf(lines) == [Site("add", 1, 5)];
  }
}

