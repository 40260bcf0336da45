# DecompilationAgent core, modelled in Dafny

DecompilationAgent is a set of code-analysis tools for C source recovered by a decompiler.
This project models the analysis engine at the centre of those tools and proves properties of the model:

- **Function extractor** (`CodeAnalyzer.extract_functions`). A line scanner finds function signatures by two regular expressions. It follows each body by brace counting, and for every function it records:
  - the called names (`_extract_function_calls`);
  - a cyclomatic-style complexity score (`_calculate_complexity`).
- **Chunker**, the packing loop of `chunk_code`. It groups the records into size-bounded chunks.
- **Call-graph builder** (`analyze_dependencies`):
  - nodes with callers and callees;
  - importance scores;
  - a stable descending ranking, the critical prefix, module groups and statistics.
- **Diagram renderer** (`generate_mermaid_chart`). It writes flowchart, mindmap and graph Mermaid sources, with identifiers cleaned by `clean_function_name`.
- **Function advisor**:
  - the indicators, purpose hints, error-handling and security ladders of `analyze_function`;
  - the suggestions, score and priority of `refactor_function`.
- **Code search** (`search_code_tool`): function, variable, string and regex modes, results capped at fifty.
- **Data-structure summary** (`analyze_data_structures_tool`): the field, enum-value and typedef passes, the summary and the complexity tier.
- **Security audit** (`security_audit_tool`):
  - the rule scan;
  - the severity and category tallies;
  - the score, the risk tier and the critical issues.
- **Analysis history** (`add_to_history`): a log of the last fifty results.

## How the model is built

**One module per component.**
- `Text` gives the Python string built-ins the code relies on: `split('\n')`, `'\n'.join`, `strip`, `lower`, `in`, `startswith`, `find`, and slicing with a possibly negative bound.
- `Lexer` gives hand-written scanners that decide the regular expressions the engine applies. The reasoning is in the doc comment at the top of `lexer.dfy`, and for the signature patterns at the top of `signature.dfy`.

**Imperative code stays imperative.** Each Python loop is a Dafny `method` with a `while` or `for` loop and its invariants, and each such method is proved equal to a specification function. The lemmas then state what the source promises about those functions. The history log is a class whose `Add` method updates its `entries` field in place.

**Where a regex is not modelled.** Some regular expressions are not decided by a scanner in the model. Their results come in as parameters:
- the security rules, as a `Matcher`;
- the field pattern of structure bodies, as a `FieldMatcher`;
- the matches of the struct, enum and typedef patterns, as sequences of captures;
- the user pattern of regex search, as an `Option` of a compiled predicate, where `None` stands for `re.error`.

## Model

| member | source | states |
|---|---|---|
| Analyzer.ExtractFunctions | src/core/analyzer.py:28-93 | the scanning loop returns exactly `FunctionsIn(code)`, the records of the sites the index walk visits |
| Analyzer.ExtractAt | src/core/analyzer.py:34-91 | one turn of the `while i` loop emits the record of the site at line `i` and jumps to its closing line, or emits nothing and moves to `i + 1` |
| Analyzer.MatchSignature | src/core/analyzer.py:42-51 | the name taken is the precise pattern's capture, else the fallback's, and the fallback counts only when the next line opens a body |
| Analyzer.FindBodyEnd | src/core/analyzer.py:53-71 | the brace loop ends with counter 0 exactly when the body closes, and then reports the 1-based closing line |
| Analyzer.FindClose | src/core/analyzer.py:57-70 | the `while j` loop reports a closing line only after the signature and within the text |
| Analyzer.ScanChars | src/core/analyzer.py:60-67 | the per-character loop closes the line exactly when the counter returns to 0, and otherwise returns the running counter |
| Analyzer.OpeningLine | src/core/analyzer.py:53-62 | a line that strips to `{` takes the brace counter from 0 to 1 |
| Analyzer.CandidateName | src/core/analyzer.py:35-53 | a line declares a name only when it is not skipped, the next line strips to `{`, and a signature pattern matches |
| Analyzer.SiteOfRecord | src/core/analyzer.py:72-87 | the k-th record is built from the k-th site: its signature line declares the name, and its body closes on the recorded line |
| Analyzer.RecordsWellFormed | src/core/analyzer.py:72-85 | every record: a non-skipped signature line; a `{` line next; `endLine >= startLine + 2`; the joined lines as `code`; a name that is a word followed by `(` in the signature |
| Analyzer.RecordsOrdered | src/core/analyzer.py:87 | records come out in source order and a record's body ends before the next signature line |
| Analyzer.ScanSitesOrdered | src/core/analyzer.py:87 | sites of the walk are ordered and their line ranges do not overlap |
| Analyzer.ScanSitesComplete | src/core/analyzer.py:33-91 | every line with a declared name and a closed body yields a site, unless it lies inside an earlier site |
| Analyzer.RecordsComplete | src/core/analyzer.py:33-91 | every accepted signature whose body closes yields a record unless it lies strictly inside another record |
| Analyzer.UnclosedBodyNoRecord | src/core/analyzer.py:72-89 | a signature whose body never closes gives no record |
| Analyzer.SkippedLineNoRecord | src/core/analyzer.py:37-39 | blank, `//`, `/*` and `#` lines are never a record's signature |
| Analyzer.ExtractFunctionCalls | src/core/analyzer.py:95-105 | the calls are a name list without repeats, holding exactly the words followed by `(` that are neither excluded keywords, nor all digits, nor one character long |
| Analyzer.CallNamesIff | src/core/analyzer.py:95-105 | a name is reported iff it occurs as a word followed by `(` and passes the filter; no name twice |
| Analyzer.KeptCallsIff | src/core/analyzer.py:101-103 | the filter keeps exactly the matches that pass it |
| Analyzer.CalculateComplexity | src/core/analyzer.py:107-118 | the loop computes `Complexity(code)`: 1, plus the word-bounded keyword counts, plus twice the `goto` count, plus the `&&`/`\|\|` count; never below 1 |
| Analyzer.ComplexityCountsKeyword | src/core/analyzer.py:110-112 | any control keyword occurring as a word raises the score above 1 |
| Analyzer.KeywordHitsCounts | src/core/analyzer.py:111-112 | each keyword's count is part of the keyword sum |
| AnalyzerCases.AddExtracted | tests/unit/test_analyzer.py:16-26 | the `add` test input yields exactly one record, named `add`, on lines 2 to 5 |
| AnalyzerCases.AddSignature | tests/unit/test_analyzer.py:18-23 | the precise pattern captures `add` from `int add(int a, int b)` |
| AnalyzerCases.AddCodeLines | tests/unit/test_analyzer.py:18-23 | the test input splits into its six lines |
| AnalyzerCases.BranchyCodeComplexity | tests/unit/test_analyzer.py:28-40 | the nested-branch test input scores above 1 |
| AnalyzerCases.CallsCodeFirst | tests/unit/test_analyzer.py:42-49 | `function_a` is among the extracted calls |
| AnalyzerCases.CallsCodeSecond | tests/unit/test_analyzer.py:42-50 | `function_b` is among the extracted calls |
| Signature.SignatureName | src/core/analyzer.py:19-26 | a name is found iff the precise or the fallback signature pattern matches |
| Signature.SignatureNameIsCall | src/core/analyzer.py:19-26 | the captured name is a maximal word of the line followed by `(` |
| Signature.DeclaratorShape | src/core/analyzer.py:24-25 | the located name is a maximal word, and white space and the first `(` of the line follow it |
| Signature.FindDeclarator | src/core/analyzer.py:24-25 | the name located by the pattern tail lies inside the line and is non-empty |
| Lexer.WordsIff | src/core/analyzer.py:112 | the scanned words are exactly the maximal runs of word characters (`\bkw\b` matches) |
| Lexer.CallWordsIff | src/core/analyzer.py:18 | the call words are exactly the maximal words followed by white space and `(` (`\b(\w+)\s*\(`) |
| Lexer.WordEndFacts | src/core/analyzer.py:18 | a scanned word is all word characters and cannot be extended |
| Helpers.CleanFunctionName | src/utils/helpers.py:49-52 | same length; every output character is an identifier character; identifier characters are kept in place and every other character becomes `_` |
| Helpers.CleanKeepsIdentifiers | src/utils/helpers.py:49-52 | a name of identifier characters only is unchanged |
| Helpers.CleanIdempotent | src/utils/helpers.py:49-52 | cleaning twice is cleaning once |
| Text.JoinSplit | src/core/analyzer.py:31 | joining the pieces of `split('\n')` with newlines gives the text back |
| Text.SplitJoin | src/tools/mcp_tools.py:442 | splitting the join of newline-free lines gives the lines back |
| Text.StripFacts | src/core/analyzer.py:35 | `strip()` removes exactly the white space at both ends |
| Text.ContainsIff | src/tools/mcp_tools.py:592 | `p in s` holds exactly when `p` occurs at some position of `s` |
| Text.DedupFacts | src/core/analyzer.py:105 | the de-duplicated list has no repeats and the same members |
| Text.PyPrefix | src/tools/mcp_tools.py:404 | `s[:n]` is a prefix of length `min(n, \|s\|)`, or `\|s\| + n` clipped at 0 for negative `n` |
| Chunker.ChunkCode | src/tools/mcp_tools.py:150-186 | the chunks are `ChunksOf` the extracted records, flatten back to them and are well formed; the counts are the chunk, line and record counts |
| Chunker.ChunkFunctions | src/tools/mcp_tools.py:152-176 | the packing loop and final flush give `ChunksOf(functions, maxChunkSize)` |
| Chunker.ChunksPartition | src/tools/mcp_tools.py:152-176 | the chunks, concatenated in order, are the records. Each chunk is non-empty, numbered by position and records its size, within the bound unless it holds a single record. Every chunk but the last was closed because the next record did not fit |
| Chunker.ChunksEmptyIff | src/tools/mcp_tools.py:171-176 | there are no chunks exactly when there are no records |
| Chunker.PackAllFacts | src/tools/mcp_tools.py:156-169 | the loop state stays well formed and holds, emitted plus open, every record seen |
| Chunker.StepCloses | src/tools/mcp_tools.py:159-166 | closing the open chunk when the record does not fit keeps the state well formed |
| Chunker.StepExtends | src/tools/mcp_tools.py:167-169 | adding the record to the open chunk keeps the state well formed |
| Chunker.GreedyAt | src/tools/mcp_tools.py:159 | each emitted chunk plus the first record of the next exceeds the bound |
| Dependencies.AnalyzeDependencies | src/tools/mcp_tools.py:285-384 | an error input gives the error result; any other input gives the report of all the chunks' records |
| Dependencies.CollectFunctions | src/tools/mcp_tools.py:297-313 | the first loop builds the name map, its key order and the call-graph edges |
| Dependencies.KeysFacts | src/tools/mcp_tools.py:300-310 | the keys are the record names, each once |
| Dependencies.CollectedLatest | src/tools/mcp_tools.py:305-310 | each name holds the entry of its last record |
| Dependencies.EdgesFacts | src/tools/mcp_tools.py:312-313 | `total_relationships` counts every listed call, and an edge is exactly a (record, listed call) pair |
| Dependencies.LinkCallers | src/tools/mcp_tools.py:315-318 | the second loop computes `Linked` |
| Dependencies.Score | src/tools/mcp_tools.py:323-327 | the integer score is exactly ten times `calls_in * 2 + calls_out * 0.5 + complexity * 0.1` over the reals |
| Dependencies.LinkedFacts | src/tools/mcp_tools.py:315-318 | linking adds no key and only appends to each entry the callers of the edges into it |
| Dependencies.UnresolvedCallsAddNoCaller | src/tools/mcp_tools.py:316-318 | the inbound entries number exactly the edges into known names; a call to an unknown name adds no inbound entry |
| Dependencies.BuildNodes | src/tools/mcp_tools.py:321-349 | one node per key, in key order |
| Dependencies.NodesAreFunctions | src/tools/mcp_tools.py:321-349 | the nodes are one per distinct record name, no repeats, as many as `total_functions` |
| Dependencies.NodeFields | src/tools/mcp_tools.py:322-348 | every node lists the callers of all edges into it, and its score and group come from its own fields |
| Dependencies.NodeOrigin | src/tools/mcp_tools.py:305-310 | every node carries the calls and complexity of the last record of its name |
| Dependencies.GroupOfFirstHit | src/tools/mcp_tools.py:329-340 | a name goes to the first group by priority whose keyword it contains, else to `core` |
| Dependencies.GroupOf | src/tools/mcp_tools.py:329-340 | a name goes to `modbus` iff its lower-cased form contains `modbus`, and to `core` only when it contains none of the ladder's keywords |
| Dependencies.SortFacts | src/tools/mcp_tools.py:351-352 | the insertion sort is descending by score and a permutation |
| Dependencies.InsertDescending | src/tools/mcp_tools.py:351-352 | inserting a node into a descending ranking keeps it descending |
| Dependencies.SortStable | src/tools/mcp_tools.py:351-352 | nodes of equal score keep their relative order |
| Dependencies.RankingFacts | src/tools/mcp_tools.py:351-352 | the report's ranking is descending, a permutation of the nodes, and stable |
| Dependencies.CriticalFacts | src/tools/mcp_tools.py:354-356 | the critical names are the first `max(1, n // 10)` of the ranking: at least one iff there is a node, at most `ceil(n / 10)` |
| Dependencies.CriticalOutscores | src/tools/mcp_tools.py:354-356 | every critical function scores at least as much as every function left out |
| Dependencies.GroupModules | src/tools/mcp_tools.py:358-364 | the grouping loop builds `Grouped` with the groups in first-seen order |
| Dependencies.GroupingFacts | src/tools/mcp_tools.py:358-364 | each group occurring once in key order, exactly the occurring groups, each with its nodes' names in ranking order |
| Dependencies.ModulesPartition | src/tools/mcp_tools.py:358-371 | `modules` partitions the ranking by group |
| Dependencies.StatisticsFacts | src/tools/mcp_tools.py:373-377 | the maximum caller and call counts bound every node and are reached by one (0 with no nodes); `avg_complexity` is the complexity sum over the distinct names, each with the complexity of its last record, divided by their number |
| Dependencies.KeyComplexities | src/tools/mcp_tools.py:305-310 | one complexity per distinct name, in key order, each that of the last record with the name |
| Dependencies.MaxOfFacts | src/tools/mcp_tools.py:374-375 | `max(..., default=0)` bounds every element and is one of them, or 0 for none |
| Mermaid.GenerateMermaidChart | src/tools/mcp_tools.py:387-442 | the renderer computes `MermaidChart`: the error text for an error input, otherwise the joined lines of the chosen dialect over the first `max_nodes` edges |
| Mermaid.FlowchartLines | src/tools/mcp_tools.py:406-422 | the flowchart loop gives `FlowLines` |
| Mermaid.EmitEdge | src/tools/mcp_tools.py:410-422 | one turn declares the unseen endpoints, then draws the edge, and adds both endpoints to the seen set |
| Mermaid.FlowDrawsEveryEdge | src/tools/mcp_tools.py:410-422 | the flowchart draws every truncated edge once, in order |
| Mermaid.FlowDeclaresOnce | src/tools/mcp_tools.py:414-420 | each endpoint of the drawn edges is declared exactly once, and nothing else is |
| Mermaid.FlowDeclaresBeforeUse | src/tools/mcp_tools.py:414-422 | every edge statement follows the declarations of both its endpoints |
| Mermaid.MindmapLines | src/tools/mcp_tools.py:424-433 | the mindmap loop gives `MindLines` |
| Mermaid.EmitGroup | src/tools/mcp_tools.py:429-433 | one group writes its label and at most its first five cleaned names |
| Mermaid.MindBodyBounds | src/tools/mcp_tools.py:428-433 | each group writes at most six lines, and at least one when it has functions |
| Mermaid.GraphLinesOf | src/tools/mcp_tools.py:435-440 | the graph loop writes one labelled line per truncated edge |
| Mermaid.ChartSplitsIntoLines | src/tools/mcp_tools.py:442 | when no name holds a newline, splitting the chart at newlines gives exactly the dialect's lines |
| Advice.IndicatorsFacts | src/tools/mcp_tools.py:205-211 | calls are counted iff some word is followed by `(`, loops iff a loop keyword is a word; the non-blank count is at most the line count |
| Advice.NonBlankCountFacts | src/tools/mcp_tools.py:209 | the non-blank count is at most the line count, is all of them iff no line is blank, and is none iff all are |
| Advice.PurposeHintsFacts | src/tools/mcp_tools.py:213-232 | a purpose is hinted iff one of its words occurs in the lower-cased name; hints come in check order, each once, never the fallback |
| Advice.HintsUpToFacts | src/tools/mcp_tools.py:217-232 | after the first k checks the hints are the purposes of rank below k whose word hits, in rank order |
| Advice.PurposeRank | src/tools/mcp_tools.py:217-232 | each label sits at its position in the check order, and the fallback comes after all of them |
| Advice.HasNullCheckIff | src/tools/mcp_tools.py:240 | the scanner decides `\bif\s*\([^)]*==\s*NULL\)` |
| Advice.NullCheckFromIff | src/tools/mcp_tools.py:240 | from position p, the scan finds a match iff one starts at some q >= p |
| Advice.NullCheckAtIff | src/tools/mcp_tools.py:240 | the test at p holds iff a match starts at p |
| Advice.NullTestFromIff | src/tools/mcp_tools.py:240 | the inner scan finds `==\s*NULL\)` after a run without `)` iff one exists |
| Advice.AnalysisFacts | src/tools/mcp_tools.py:234-276 | `Excellent` iff all three error-handling signs; `NeedsImprovement` iff none; high risk iff unsafe string calls and a `malloc` without `free`, low iff neither; the general estimate iff no purpose word occurs |
| Advice.AnalyzeFunction | src/tools/mcp_tools.py:195-282 | the result names the function; the estimate is the hints, or the fallback when there are none; complexity is low iff at most 20 non-blank lines; reliability is top iff all three error signs and lowest iff none; risk is high iff both concerns and low iff none |
| Advice.ComplexityLevel | src/tools/mcp_tools.py:258-263 | very high iff more than 100 lines, high iff 51 to 100, low iff at most 20 |
| Advice.ReliabilityOf | src/tools/mcp_tools.py:264-269 | excellent iff three hints or more, fair iff one, needs improvement iff none |
| Advice.SecurityRisk | src/tools/mcp_tools.py:270-274 | high iff two concerns or more, low iff none, never very high |
| Advice.ComplexityLevelMonotone | src/tools/mcp_tools.py:258-263 | the level thresholds are 20, 50 and 100 and longer code never gets a lower level |
| Advice.ReliabilityMonotone | src/tools/mcp_tools.py:264-269 | more hints never lower the rating, thresholds 1, 2 and 3 |
| Advice.SecurityRiskMonotone | src/tools/mcp_tools.py:270-274 | more concerns never lower the risk, thresholds 1 and 2 |
| Advice.SuggestionsIff | src/tools/mcp_tools.py:454-478 | each suggestion is made iff its check fires, and carries what the check found; at most five |
| Advice.SuggestionsFromFacts | src/tools/mcp_tools.py:454-478 | the suggestion list holds each suggestion exactly when its flag is set |
| Advice.SuggestionsFromMembers | src/tools/mcp_tools.py:454-478 | a suggestion is in the list iff one of the five guarded cases produces it |
| Advice.ShortNamesIff | src/tools/mcp_tools.py:467 | the short names are exactly the one-letter lower-case words |
| Advice.RefactorFacts | src/tools/mcp_tools.py:481-487 | at most five suggestions, so the score is `100 - 15k`, in [25, 100], a multiple of 5 |
| Advice.RefactorFunction | src/tools/mcp_tools.py:445-494 | the result names the function, holds at most five suggestions, loses 15 points per suggestion; priority is high iff more than three suggestions and low iff at most one |
| Advice.ImprovementScore | src/tools/mcp_tools.py:481 | the score is in [0, 100], 100 iff no suggestion, and 0 iff seven or more |
| Advice.Priority | src/tools/mcp_tools.py:487 | high iff four or more suggestions, low iff at most one, never very high |
| Advice.ScoreUnclipped | src/tools/mcp_tools.py:481 | for at most five suggestions the `max(0, ...)` never clips |
| Advice.PriorityMonotone | src/tools/mcp_tools.py:481-487 | more suggestions never lower the priority nor raise the score |
| Search.SearchCode | src/tools/mcp_tools.py:559-622 | the tool computes `SearchOf`: it dispatches on the `search_type` string and echoes that string in the report |
| Search.ModeOf | src/tools/mcp_tools.py:562-599 | each of the four type strings selects its branch, and every other string selects none |
| Search.SearchLines | src/tools/mcp_tools.py:562-611 | dispatch on the search type; every mode's loop gives `Hits` |
| Search.SearchFunction | src/tools/mcp_tools.py:562-576 | the function-mode loop gives the function-mode hits |
| Search.SearchVariable | src/tools/mcp_tools.py:578-587 | the variable-mode loop gives the variable-mode hits |
| Search.SearchString | src/tools/mcp_tools.py:589-597 | the string-mode loop gives the string-mode hits |
| Search.SearchRegex | src/tools/mcp_tools.py:599-609 | the regex-mode loop gives the regex-mode hits |
| Search.SearchFacts | src/tools/mcp_tools.py:559-622 | only `regex` with an uncompiled user pattern gives the error; `total_matches` counts all hits, at most the line count; the results are the first fifty in order; the pattern and the type string are echoed as given; an unknown type string reports no matches |
| Search.NothingFound | src/tools/mcp_tools.py:562-611 | an unknown search type, or a rejected user pattern, finds nothing |
| Search.HitsSound | src/tools/mcp_tools.py:567-609 | every result names a line of the content and is what that line gives |
| Search.HitsComplete | src/tools/mcp_tools.py:567-609 | every matching line gives its result |
| Search.HitsAscending | src/tools/mcp_tools.py:567-609 | results come in strictly increasing line order, so no line twice |
| Search.LineReported | src/tools/mcp_tools.py:567-609 | a line is reported iff it matches in the searched mode |
| Search.StringModeIff | src/tools/mcp_tools.py:589-597 | in string mode a line is reported iff the text is a substring of it |
| Search.FunctionKinds | src/tools/mcp_tools.py:567-576 | a function-mode result carries the searched name and the stripped line, and is a definition iff one of the type keywords occurs in the line, else a call |
| Search.IsDefinitionIff | src/tools/mcp_tools.py:570 | a line is a definition iff one of the five keywords occurs in it |
| Search.CallPatternInIff | src/tools/mcp_tools.py:564-568 | `re.search` with `\bW\s*\(` succeeds iff the pattern matches at some position |
| Search.VariablePatternInIff | src/tools/mcp_tools.py:580-582 | `re.search` with `\bW\b` succeeds iff the pattern matches at some position |
| Search.PatternsNeedText | src/tools/mcp_tools.py:564-582 | a line found in function or variable mode contains the text |
| Structures.AnalyzeDataStructures | src/tools/mcp_tools.py:644-728 | the tool computes `ReportOf` from the three lists of pattern matches |
| Structures.ReportFacts | src/tools/mcp_tools.py:714-727 | the totals; complex structures are exactly those with more than five fields; the most complex is None iff there are none, else the first of the largest; tiers High iff more than ten, Low iff at most three |
| Structures.CollectStructures | src/tools/mcp_tools.py:650-677 | the structure loop gives one structure per match, in match order |
| Structures.StructureOf | src/tools/mcp_tools.py:651-677 | name from the typedef alias or the tag; `field_count` is the number of fields and the size estimate is four per field |
| Structures.ParseFields | src/tools/mcp_tools.py:659-670 | the field loop gives `Fields` over the body's lines |
| Structures.FieldsMembers | src/tools/mcp_tools.py:660-670 | exactly the non-blank, non-comment lines the field pattern matches give fields, in line order |
| Structures.StructuresAt | src/tools/mcp_tools.py:650-677 | the i-th structure is built from the i-th match |
| Structures.CollectEnumerations | src/tools/mcp_tools.py:681-700 | the enum loop gives one enumeration per match |
| Structures.EnumerationOf | src/tools/mcp_tools.py:682-700 | the name from the alias or tag; the value count is the number of values |
| Structures.ParseEnumValues | src/tools/mcp_tools.py:690-694 | the value loop gives `EnumValues` over the body's lines |
| Structures.EnumValuesMembers | src/tools/mcp_tools.py:691-694 | exactly the lines whose trimmed text is non-empty and not a comment give values, in order |
| Structures.EnumValueFacts | src/tools/mcp_tools.py:692-694 | a value is the stripped line without its trailing commas, non-empty and not a comment |
| Structures.TrimCommasFacts | src/tools/mcp_tools.py:692 | `rstrip(',')` removes only commas and leaves no trailing comma |
| Structures.CollectTypedefs | src/tools/mcp_tools.py:703-712 | the typedef loop gives `Typedefs` |
| Structures.TypedefsMembers | src/tools/mcp_tools.py:704-712 | the kept typedefs are exactly the matches whose stripped base names neither `struct` nor `enum` |
| Structures.ComplexStructuresMembers | src/tools/mcp_tools.py:722 | a structure is complex iff it has more than five fields |
| Structures.FirstMax | src/tools/mcp_tools.py:725 | the index `max` picks: the largest field count, and the first with it |
| Structures.ModelComplexityMonotone | src/tools/mcp_tools.py:726 | more structures never give a lower tier |
| Security.SecurityAudit | src/tools/mcp_tools.py:750-850 | the tool computes `AuditOf` |
| Security.ScanLines | src/tools/mcp_tools.py:800-810 | the nested scan gives `Findings` |
| Security.FindingsFacts | src/tools/mcp_tools.py:800-810 | a finding is exactly a rule hit on a line, with the 1-based line number and the stripped line; findings are ordered by line, then by rule |
| Security.RuleHitsFacts | src/tools/mcp_tools.py:801-810 | one line's findings are its rule hits, in rule order |
| Security.RuleIndex | src/tools/mcp_tools.py:754-797 | every category has exactly one rule: the table entry at its index has that category and no other entry does |
| Security.CountIssues | src/tools/mcp_tools.py:813-818 | the counting loop gives both tallies |
| Security.TallyFacts | src/tools/mcp_tools.py:813-818 | a `defaultdict` tally keys the distinct values in first-occurrence order and counts each |
| Security.TouchFacts | src/tools/mcp_tools.py:821-823 | reading a `defaultdict` key keeps the tally well keyed and every old count, adds the key to the key set, and a missing key is inserted with 0 |
| Security.ReadWeightsFacts | src/tools/mcp_tools.py:821-823 | after the three weight reads every severity is keyed and the old counts are kept |
| Security.SeverityDistributionFacts | src/tools/mcp_tools.py:813-832 | the severity distribution has the three severities as keys; each value is that severity's count and they add up to the number of findings |
| Security.CategoryDistributionFacts | src/tools/mcp_tools.py:813-833 | the category distribution keys exactly the occurring categories, first-seen order, with their counts |
| Security.SeveritiesCover | src/tools/mcp_tools.py:821-824 | the three severity counts add up to all findings |
| Security.ScoreBounds | src/tools/mcp_tools.py:826 | the score is in [0, 100], even, and 100 iff there are no findings |
| Security.Score | src/tools/mcp_tools.py:821-826 | the score is in [0, 100], 100 iff there are no findings, and 0 iff the weighted count reaches 50 |
| Security.ScoreMonotone | src/tools/mcp_tools.py:821-826 | more findings never raise the score, and strictly lower it until it reaches 0 |
| Security.RiskMonotone | src/tools/mcp_tools.py:837-841 | a lower score never gives a lower risk; the boundaries are 60 and 80 |
| Security.RiskOf | src/tools/mcp_tools.py:837-841 | high risk iff the score is below 60, low iff it is at least 80 |
| Security.RiskExamples | src/tools/mcp_tools.py:821-841 | clean content is low risk; seven high-severity findings are high risk |
| Security.CriticalIssuesFacts | src/tools/mcp_tools.py:842 | the critical issues are exactly the high-severity ones, as many as the high count |
| Security.CollectCritical | src/tools/mcp_tools.py:842 | the filter loop gives `CriticalIssues` |
| Security.AuditFacts | src/tools/mcp_tools.py:828-850 | at most fifty issues listed, the first ones; total and distributions count every finding; the score is in [0, 100] and 100 iff there are none; as many critical issues as high ones |
| History.AnalysisHistory.Add | src/tools/mcp_tools.py:22-31 | the entry is appended and the oldest is dropped past fifty; a log within capacity stays within it |
| History.AnalysisHistory.constructor | src/tools/mcp_tools.py:20 | the log starts empty |
| History.AppendedFacts | src/tools/mcp_tools.py:24-31 | an append keeps the log at fifty at most and puts the entry last. It is a plain append below capacity, and drops the first entry at capacity |
| History.ReplayKeepsLatest | src/tools/mcp_tools.py:22-31 | after any sequence of appends the log is the last fifty entries, or all of them, oldest first |
| History.ReplayLength | src/tools/mcp_tools.py:29-31 | the log holds `min(n, 50)` entries after n appends |

## Left out

- File reading: `chunk_code`, `search_code_tool`, `analyze_data_structures_tool` and `security_audit_tool` take the file content as a parameter. Their "cannot read file" error result is not modelled.
- Side effects inside the tools: the calls from each tool to `add_to_history` and `get_smart_recommendations` are not modelled. `get_smart_recommendations`, `smart_assistant_tool`, the report generators and the MCP server wiring are outside this model.
- History clock: the `time.time()` reading is the `timestamp` parameter of `Add`, a real number of seconds. Where it comes from is not modelled.
- Regular expressions with no deciding scanner: the six security rules (with `re.IGNORECASE`), the structure-field pattern, the three `finditer` passes over structs, enums and typedefs, and the user pattern of regex search are all parameters.
  - The model proves what the code does with whatever these patterns match. It does not prove what the patterns match.
  - `re.compile` failing is the `None` case of the compiled pattern.
- Character classes: `\w`, `\s`, `lower()` and `isdigit()` are modelled on ASCII. Python's Unicode classes would also accept other letters and digits.
- Analyzer.CallNames: `list(set(calls))` has no defined order. The model returns first-occurrence order, and the proved properties (membership, no repeats) hold for any order.
- Advice.RefactorFunction: the joined `set(...)` texts in two suggestions are kept as the sets themselves, so their print order is not modelled.
- Texts: the suggestion kinds and the Chinese labels of levels, purposes and match types are enumerations, and `estimated_purpose` is the list of labels rather than their `" | "` join.
- Security.SecurityAudit: the rules' `description` and `suggestion` texts are dropped, not enumerated; an issue keeps its severity and category. The constant `recommendations` list of the audit result is left out as well.
- Dependencies.Score: the floating-point `importance_score` is modelled as ten times its value, `20·in + 5·out + complexity`, which is exact in integers. Rounding in Python's floating-point sum, which could in rare cases break a tie, is not modelled.
- Dependencies.StatisticsFacts: `avg_complexity` is given as the complexity sum and the function count. The floating-point quotient is not computed.
- Dependencies.AnalyzeDependencies: the `.get(..., default)` fallbacks for missing record fields do not arise, because the input records are `FunctionInfo` values with every field. The input chunk list is the `ChunksInput` datatype, and its error variant stands for a dictionary holding `"error"`.
- Mermaid.GenerateMermaidChart: the `call_graph` and `modules` inputs are the fields of a dependency report, not arbitrary dictionaries.
- Chunker.Chunk: a chunk stores its number, and its `chunk_<n>` id is derived by `Chunk.Id()`.
- Dependencies.CriticalFacts: `critical_count` is `max(1, n // 10)`, as the code computes it. `CriticalFacts` also bounds it by `ceil(n / 10)`.
- Dictionary order: the order of `modules`, `severity_distribution` and `category_distribution` is modelled as insertion order, which is what Python guarantees.
