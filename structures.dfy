/**
 * `analyze_data_structures_tool` (src/tools/mcp_tools.py): structure, enumeration and typedef
 * declarations found in the content are turned into records (fields, values, base types),
 * and the structures are summarised: how many there are, which have more than five fields,
 * which has the most, and a three-level complexity tier.
 *
 * The multi-line regular expressions that find the declarations and the per-line field
 * pattern are not modelled: the declarations come in as their captured groups, in match
 * order, and the field pattern as a function from a stripped line to its two groups.
 */
module Structures {
  import opened Text

  /** The field pattern's `search` on a stripped line: the type and name groups, if it matches. */
  type FieldMatcher = string -> Option<(string, string)>

  /** A structure or enumeration match: which alternative matched, with its groups. */
  datatype DeclMatch =
    | TypedefForm(body: string, alias: string)   // `typedef struct { body } alias`
    | TaggedForm(tag: string, body: string)      // `struct tag { body }`

  /** A typedef match: the raw base-type group and the new name. */
  datatype TypedefMatch = TypedefMatch(base: string, name: string)

  datatype Field = Field(typ: string, name: string, line: string)
  datatype Structure = Structure(name: string, fields: seq<Field>, fieldCount: nat, estimatedSize: nat)
  datatype Enumeration = Enumeration(name: string, values: seq<string>, valueCount: nat)
  datatype Typedef = Typedef(name: string, baseType: string)

  /** `data_model_complexity`. */
  datatype Tier = High | Medium | Low

  /** The name comes from the typedef alias when that alternative matched, else from the tag. */
  function DeclName(m: DeclMatch): string {
    match m
    case TypedefForm(_, alias) => alias
    case TaggedForm(tag, _) => tag
  }

  function DeclBody(m: DeclMatch): string {
    match m
    case TypedefForm(body, _) => body
    case TaggedForm(_, body) => body
  }

  /** A stripped line that is empty or starts a comment. */
  predicate Skipped(t: string) {
    t == [] || StartsWith(t, "//") || StartsWith(t, "/*")
  }

  // ---------------------------------------------------------------------------
  // Fields

  /** The field one body line declares, if any. */
  function FieldOf(raw: string, parse: FieldMatcher): Option<Field> {
    var t := Strip(raw);
    if Skipped(t) then None
    else match parse(t)
      case Some(g) => Some(Field(Strip(g.0), g.1, t))
      case None => None
  }

  function Fields(lines: seq<string>, parse: FieldMatcher): seq<Field> {
    if |lines| == 0 then []
    else
      var f := FieldOf(lines[|lines| - 1], parse);
      Fields(lines[..|lines| - 1], parse) + (if f.Some? then [f.value] else [])
  }

  method ParseFields(body: string, parse: FieldMatcher) returns (fields: seq<Field>)
    ensures fields == Fields(Split(body), parse)
  {
    var lines := Split(body);
    fields := [];
    for i := 0 to |lines|
      invariant fields == Fields(lines[..i], parse)
    {
      assert lines[..i + 1][..i] == lines[..i];
      var t := Strip(lines[i]);
      if t != [] && !StartsWith(t, "//") && !StartsWith(t, "/*") {
        var m := parse(t);
        if m.Some? {
          fields := fields + [Field(Strip(m.value.0), m.value.1, t)];
        }
      }
    }
    assert lines[..|lines|] == lines;
  }

  /** Exactly the body lines that are neither blank nor comments and that the field pattern
      matches give fields, in line order, each holding that stripped line. */
  lemma {:induction false} FieldsMembers(lines: seq<string>, parse: FieldMatcher)
    ensures |Fields(lines, parse)| <= |lines|
    ensures forall f :: f in Fields(lines, parse) <==> exists i :: 0 <= i < |lines| && FieldOf(lines[i], parse) == Some(f)
  {
    if |lines| > 0 {
      var init := lines[..|lines| - 1];
      FieldsMembers(init, parse);
      assert forall i :: 0 <= i < |init| ==> init[i] == lines[i];
    }
  }

  function StructureOf(m: DeclMatch, parse: FieldMatcher): (s: Structure)
    ensures s.name == DeclName(m)
    ensures s.fieldCount == |s.fields| && s.estimatedSize == 4 * s.fieldCount
  {
    var fs := Fields(Split(DeclBody(m)), parse);
    Structure(DeclName(m), fs, |fs|, |fs| * 4)
  }

  function StructuresOf(ms: seq<DeclMatch>, parse: FieldMatcher): (ss: seq<Structure>)
    ensures |ss| == |ms|
  {
    if |ms| == 0 then []
    else StructuresOf(ms[..|ms| - 1], parse) + [StructureOf(ms[|ms| - 1], parse)]
  }

  lemma {:induction false} StructuresAt(ms: seq<DeclMatch>, parse: FieldMatcher, i: nat)
    requires i < |ms|
    ensures StructuresOf(ms, parse)[i] == StructureOf(ms[i], parse)
  {
    if i < |ms| - 1 {
      StructuresAt(ms[..|ms| - 1], parse, i);
    }
  }

  method CollectStructures(ms: seq<DeclMatch>, parse: FieldMatcher) returns (ss: seq<Structure>)
    ensures ss == StructuresOf(ms, parse)
  {
    ss := [];
    for k := 0 to |ms|
      invariant ss == StructuresOf(ms[..k], parse)
    {
      assert ms[..k + 1][..k] == ms[..k];
      var fields := ParseFields(DeclBody(ms[k]), parse);
      ss := ss + [Structure(DeclName(ms[k]), fields, |fields|, |fields| * 4)];
    }
    assert ms[..|ms|] == ms;
  }

  // ---------------------------------------------------------------------------
  // Enumerations

  /** `rstrip(',')`: every trailing comma removed. */
  function TrimCommas(s: string): (r: string)
    ensures |r| <= |s| && r == s[..|r|]
  {
    if |s| > 0 && s[|s| - 1] == ',' then TrimCommas(s[..|s| - 1]) else s
  }

  /** What is cut off is all commas, and the rest does not end with one. */
  lemma {:induction false} TrimCommasFacts(s: string)
    ensures |TrimCommas(s)| == 0 || TrimCommas(s)[|TrimCommas(s)| - 1] != ','
    ensures forall i :: |TrimCommas(s)| <= i < |s| ==> s[i] == ','
  {
    if |s| > 0 && s[|s| - 1] == ',' {
      TrimCommasFacts(s[..|s| - 1]);
    }
  }

  /** The value one body line holds, if any. */
  function EnumValueOf(raw: string): Option<string> {
    var t := TrimCommas(Strip(raw));
    if t != [] && !StartsWith(t, "//") then Some(t) else None
  }

  function EnumValues(lines: seq<string>): seq<string> {
    if |lines| == 0 then []
    else
      var v := EnumValueOf(lines[|lines| - 1]);
      EnumValues(lines[..|lines| - 1]) + (if v.Some? then [v.value] else [])
  }

  method ParseEnumValues(body: string) returns (values: seq<string>)
    ensures values == EnumValues(Split(body))
  {
    var lines := Split(body);
    values := [];
    for i := 0 to |lines|
      invariant values == EnumValues(lines[..i])
    {
      assert lines[..i + 1][..i] == lines[..i];
      var t := TrimCommas(Strip(lines[i]));
      if t != [] && !StartsWith(t, "//") {
        values := values + [t];
      }
    }
    assert lines[..|lines|] == lines;
  }

  /** Exactly the lines whose stripped, comma-trimmed text is non-empty and not a comment
      give values, in line order. */
  lemma {:induction false} EnumValuesMembers(lines: seq<string>)
    ensures |EnumValues(lines)| <= |lines|
    ensures forall v :: v in EnumValues(lines) <==> exists i :: 0 <= i < |lines| && EnumValueOf(lines[i]) == Some(v)
  {
    if |lines| > 0 {
      var init := lines[..|lines| - 1];
      EnumValuesMembers(init);
      assert forall i :: 0 <= i < |init| ==> init[i] == lines[i];
      var v := EnumValueOf(lines[|lines| - 1]);
      assert EnumValues(lines) == EnumValues(init) + (if v.Some? then [v.value] else []);
    }
  }

  /** A value is the stripped line without its trailing commas: non-empty, not a comment,
      and not ending in a comma. */
  lemma EnumValueFacts(raw: string)
    ensures EnumValueOf(raw).Some? ==>
      var v := EnumValueOf(raw).value;
      && v != [] && !StartsWith(v, "//") && v[|v| - 1] != ','
      && v == Strip(raw)[..|v|]
      && forall i :: |v| <= i < |Strip(raw)| ==> Strip(raw)[i] == ','
  {
    TrimCommasFacts(Strip(raw));
  }

  function EnumerationOf(m: DeclMatch): (e: Enumeration)
    ensures e.name == DeclName(m) && e.valueCount == |e.values|
  {
    var vs := EnumValues(Split(DeclBody(m)));
    Enumeration(DeclName(m), vs, |vs|)
  }

  function EnumerationsOf(ms: seq<DeclMatch>): (es: seq<Enumeration>)
    ensures |es| == |ms|
  {
    if |ms| == 0 then []
    else EnumerationsOf(ms[..|ms| - 1]) + [EnumerationOf(ms[|ms| - 1])]
  }

  method CollectEnumerations(ms: seq<DeclMatch>) returns (es: seq<Enumeration>)
    ensures es == EnumerationsOf(ms)
  {
    es := [];
    for k := 0 to |ms|
      invariant es == EnumerationsOf(ms[..k])
    {
      assert ms[..k + 1][..k] == ms[..k];
      var values := ParseEnumValues(DeclBody(ms[k]));
      es := es + [Enumeration(DeclName(ms[k]), values, |values|)];
    }
    assert ms[..|ms|] == ms;
  }

  // ---------------------------------------------------------------------------
  // Typedefs

  /** A typedef is kept unless its stripped base type mentions `struct` or `enum`. */
  function TypedefOf(m: TypedefMatch): Option<Typedef> {
    var b := Strip(m.base);
    if !Contains(b, "struct") && !Contains(b, "enum") then Some(Typedef(m.name, b)) else None
  }

  function Typedefs(ms: seq<TypedefMatch>): seq<Typedef> {
    if |ms| == 0 then []
    else
      var t := TypedefOf(ms[|ms| - 1]);
      Typedefs(ms[..|ms| - 1]) + (if t.Some? then [t.value] else [])
  }

  method CollectTypedefs(ms: seq<TypedefMatch>) returns (ts: seq<Typedef>)
    ensures ts == Typedefs(ms)
  {
    ts := [];
    for k := 0 to |ms|
      invariant ts == Typedefs(ms[..k])
    {
      assert ms[..k + 1][..k] == ms[..k];
      var b := Strip(ms[k].base);
      if !Contains(b, "struct") && !Contains(b, "enum") {
        ts := ts + [Typedef(ms[k].name, b)];
      }
    }
    assert ms[..|ms|] == ms;
  }

  /** The kept typedefs are exactly the matches whose base type names neither keyword. */
  lemma {:induction false} TypedefsMembers(ms: seq<TypedefMatch>)
    ensures |Typedefs(ms)| <= |ms|
    ensures forall t :: t in Typedefs(ms) <==>
      exists i :: 0 <= i < |ms| && TypedefOf(ms[i]) == Some(t)
  {
    if |ms| > 0 {
      var init := ms[..|ms| - 1];
      TypedefsMembers(init);
      assert forall i :: 0 <= i < |init| ==> init[i] == ms[i];
    }
  }

  // ---------------------------------------------------------------------------
  // The summary

  /** The `complex_structures` list: the structures with more than five fields, in order
      (`[s for s in structures if s["field_count"] > 5]`). */
  function ComplexStructures(ss: seq<Structure>): seq<Structure> {
    if |ss| == 0 then []
    else
      var s := ss[|ss| - 1];
      ComplexStructures(ss[..|ss| - 1]) + (if s.fieldCount > 5 then [s] else [])
  }

  lemma {:induction false} ComplexStructuresMembers(ss: seq<Structure>)
    ensures |ComplexStructures(ss)| <= |ss|
    ensures forall s :: s in ComplexStructures(ss) <==> s in ss && s.fieldCount > 5
  {
    if |ss| > 0 {
      ComplexStructuresMembers(ss[..|ss| - 1]);
      assert ss == ss[..|ss| - 1] + [ss[|ss| - 1]];
    }
  }

  /** Where `max(..., key=field_count)` lands: the first structure with the largest count. */
  function FirstMax(ss: seq<Structure>): (i: nat)
    requires |ss| > 0
    ensures i < |ss|
    ensures forall j :: 0 <= j < |ss| ==> ss[j].fieldCount <= ss[i].fieldCount
    ensures forall j :: 0 <= j < i ==> ss[j].fieldCount < ss[i].fieldCount
  {
    if |ss| == 1 then 0
    else
      var m := FirstMax(ss[..|ss| - 1]);
      if ss[|ss| - 1].fieldCount > ss[m].fieldCount then |ss| - 1 else m
  }

  function MostComplex(ss: seq<Structure>): Option<Structure> {
    if |ss| == 0 then None else Some(ss[FirstMax(ss)])
  }

  /** `高` above ten structures, `中` above three, `低` otherwise. */
  function ModelComplexity(n: nat): Tier {
    if n > 10 then High else if n > 3 then Medium else Low
  }

  function TierRank(t: Tier): nat {
    match t
    case Low => 0
    case Medium => 1
    case High => 2
  }

  /** More structures never give a lower tier. */
  lemma ModelComplexityMonotone(a: nat, b: nat)
    requires a <= b
    ensures TierRank(ModelComplexity(a)) <= TierRank(ModelComplexity(b))
  {
  }

  datatype Report = Report(
    structures: seq<Structure>,
    enums: seq<Enumeration>,
    typedefs: seq<Typedef>,
    totalStructures: nat,
    totalEnums: nat,
    totalTypedefs: nat,
    complexStructures: seq<Structure>,
    mostComplexStruct: Option<Structure>,
    dataModelComplexity: Tier)

  function ReportOf(structs: seq<DeclMatch>, enums: seq<DeclMatch>, tds: seq<TypedefMatch>, parse: FieldMatcher): Report {
    var ss := StructuresOf(structs, parse);
    var es := EnumerationsOf(enums);
    var ts := Typedefs(tds);
    Report(ss, es, ts, |ss|, |es|, |ts|, ComplexStructures(ss), MostComplex(ss), ModelComplexity(|ss|))
  }

  method AnalyzeDataStructures(structs: seq<DeclMatch>, enums: seq<DeclMatch>, tds: seq<TypedefMatch>, parse: FieldMatcher)
    returns (r: Report)
    ensures r == ReportOf(structs, enums, tds, parse)
  {
    var ss := CollectStructures(structs, parse);
    var es := CollectEnumerations(enums);
    var ts := CollectTypedefs(tds);
    r := Report(ss, es, ts, |ss|, |es|, |ts|, ComplexStructures(ss), MostComplex(ss), ModelComplexity(|ss|));
  }

  /** The summary counts every declaration, lists exactly the structures with more than five
      fields, and names the first structure with the most fields, which exists exactly when
      some structure was found. */
  lemma ReportFacts(structs: seq<DeclMatch>, enums: seq<DeclMatch>, tds: seq<TypedefMatch>, parse: FieldMatcher)
    ensures var r := ReportOf(structs, enums, tds, parse);
      && r.totalStructures == |structs| && r.totalEnums == |enums| && r.totalTypedefs <= |tds|
      && |r.complexStructures| <= r.totalStructures
      && (forall s :: s in r.complexStructures <==> s in r.structures && s.fieldCount > 5)
      && (r.mostComplexStruct.None? <==> |structs| == 0)
      && (r.mostComplexStruct.Some? ==>
            && r.mostComplexStruct.value in r.structures
            && forall s :: s in r.structures ==> s.fieldCount <= r.mostComplexStruct.value.fieldCount)
      && (|structs| > 0 ==>
            var i := FirstMax(r.structures);
            && r.mostComplexStruct == Some(r.structures[i])
            && forall j :: 0 <= j < i ==> r.structures[j].fieldCount < r.structures[i].fieldCount)
      && (forall i :: 0 <= i < |structs| ==> r.structures[i] == StructureOf(structs[i], parse))
      && (r.dataModelComplexity == High <==> |structs| > 10)
      && (r.dataModelComplexity == Low <==> |structs| <= 3)
  {
    var ss := StructuresOf(structs, parse);
    ComplexStructuresMembers(ss);
    TypedefsMembers(tds);
    forall i | 0 <= i < |structs|
      ensures ss[i] == StructureOf(structs[i], parse)
    {
      StructuresAt(structs, parse, i);
    }
  }
}
