/**
 * Which colour slot a scene node belongs to: the lower-cased node name is
 * matched against a per-model list of substrings, in a fixed priority
 * order, as the material pass of src/components/Scene.tsx does.
 */
module PartColors {
  import opened Values

  const TwoPiece: string := "2-piece.glb"
  const FourPiece: string := "4-piece.glb"

  /** The four colour slots `part1Color` .. `part4Color`. */
  datatype Part = Part1 | Part2 | Part3 | Part4

  /** The settings key holding a slot's colour. */
  function ColorKey(p: Part): (k: string)
    ensures |k| == 10 && k[..4] == "part" && k[5..] == "Color"
  {
    match p
    case Part1 => "part1Color"
    case Part2 => "part2Color"
    case Part3 => "part3Color"
    case Part4 => "part4Color"
  }

  /** `lightingSettings.selectedModel` as the string comparison sees it; anything but a string compares unequal to both file names. */
  function SelectedModel(s: Settings): (m: string)
    ensures "selectedModel" in s && s["selectedModel"].Text? ==> m == s["selectedModel"].s
    ensures m == TwoPiece ==> Lookup(s, "selectedModel") == Some(Text(TwoPiece))
  {
    if "selectedModel" in s && s["selectedModel"].Text? then s["selectedModel"].s else ""
  }

  /**
   * The slot a node named `childName` resolves to, written as the branch
   * chain of the material pass: the 2-piece chain when the model is
   * exactly "2-piece.glb", the 4-piece chain (with its capitalised
   * alternatives) for any other model.
   */
  function ResolvePart(selectedModel: string, childName: string): (r: Option<Part>)
    ensures selectedModel == TwoPiece ==> r != Some(Part3) && r != Some(Part4)
  {
    var partName := ToLower(childName);
    if selectedModel == TwoPiece then
      if Includes(partName, "part1.006") || Includes(partName, "part1006") then Some(Part1)
      else if Includes(partName, "part2.006") || Includes(partName, "part2006") then Some(Part2)
      else None
    else
      if Includes(partName, "Part1002") || Includes(partName, "part1002") then Some(Part1)
      else if Includes(partName, "Part2002") || Includes(partName, "part2002") then Some(Part2)
      else if Includes(partName, "Part3004") || Includes(partName, "part3004") then Some(Part3)
      else if Includes(partName, "Part4004") || Includes(partName, "part4004") then Some(Part4)
      else None
  }

  /** One row of a model variant's pattern table: a slot and the name fragments that select it. */
  datatype Rule = Rule(part: Part, patterns: seq<string>)

  /** The model-variant table: the rows in priority order, every pattern in lower case. */
  function PatternTable(selectedModel: string): (t: seq<Rule>)
    ensures |t| == if selectedModel == TwoPiece then 2 else 4
    ensures forall k :: 0 <= k < |t| ==> t[k].patterns != []
  {
    if selectedModel == TwoPiece then
      [Rule(Part1, ["part1.006", "part1006"]), Rule(Part2, ["part2.006", "part2006"])]
    else
      [Rule(Part1, ["part1002"]), Rule(Part2, ["part2002"]), Rule(Part3, ["part3004"]), Rule(Part4, ["part4004"])]
  }

  predicate Matches(name: string, rule: Rule) {
    exists k :: 0 <= k < |rule.patterns| && Includes(name, rule.patterns[k])
  }

  /** The slot of the first row, in table order, one of whose patterns the name includes. */
  function FirstMatch(table: seq<Rule>, name: string): (r: Option<Part>)
    ensures r.None? <==> forall k :: 0 <= k < |table| ==> !Matches(name, table[k])
    ensures r.Some? ==> exists k :: 0 <= k < |table| && table[k].part == r.value && Matches(name, table[k])
                                      && forall j :: 0 <= j < k ==> !Matches(name, table[j])
  {
    if table == [] then None
    else if Matches(name, table[0]) then Some(table[0].part)
    else
      var r := FirstMatch(table[1..], name);
      assert forall k :: 1 <= k < |table| ==> table[k] == table[1..][k - 1];
      r
  }

  lemma MatchesOne(name: string, part: Part, p: string)
    ensures Matches(name, Rule(part, [p])) <==> Includes(name, p)
  {
    if Includes(name, p) {
      assert Includes(name, Rule(part, [p]).patterns[0]);
    }
  }

  lemma MatchesTwo(name: string, part: Part, p: string, q: string)
    ensures Matches(name, Rule(part, [p, q])) <==> Includes(name, p) || Includes(name, q)
  {
    if Includes(name, p) {
      assert Includes(name, Rule(part, [p, q]).patterns[0]);
    } else if Includes(name, q) {
      assert Includes(name, Rule(part, [p, q]).patterns[1]);
    }
  }

  /**
   * The branch chain is the first-match lookup in the pattern table on the
   * lower-cased name; the capitalised alternatives of the 4-piece chain
   * never match a lower-cased name and so change nothing.
   */
  lemma ResolvePartIsFirstMatch(selectedModel: string, childName: string)
    ensures ResolvePart(selectedModel, childName) == FirstMatch(PatternTable(selectedModel), ToLower(childName))
  {
    var n := ToLower(childName);
    var t := PatternTable(selectedModel);
    if selectedModel == TwoPiece {
      MatchesTwo(n, Part1, "part1.006", "part1006");
      MatchesTwo(n, Part2, "part2.006", "part2006");
      assert t[1..][1..] == [];
    } else {
      LowerNeverIncludesCapital(childName, "Part1002");
      LowerNeverIncludesCapital(childName, "Part2002");
      LowerNeverIncludesCapital(childName, "Part3004");
      LowerNeverIncludesCapital(childName, "Part4004");
      MatchesOne(n, Part1, "part1002");
      MatchesOne(n, Part2, "part2002");
      MatchesOne(n, Part3, "part3004");
      MatchesOne(n, Part4, "part4004");
      var t1 := t[1..];
      var t2 := t1[1..];
      var t3 := t2[1..];
      assert t3[1..] == [];
      assert FirstMatch(t3, n) == if Includes(n, "part4004") then Some(Part4) else None;
      assert FirstMatch(t2, n) == if Includes(n, "part3004") then Some(Part3) else FirstMatch(t3, n);
      assert FirstMatch(t1, n) == if Includes(n, "part2002") then Some(Part2) else FirstMatch(t2, n);
    }
  }

  /** A mixed-case name carrying the first part's fragment resolves to slot 1 of the 4-piece model. */
  lemma MixedCaseNameResolves(name: string)
    requires name == "Part1002_mesh"
    ensures ResolvePart(FourPiece, name) == Some(Part1)
  {
    var a := ToLower(name);
    assert a == "part1002_mesh";
    assert "part1002" <= a;
  }

  /** The fourth part's own name resolves to slot 4 of the 4-piece model, after the three earlier rows fail. */
  lemma FourthPartResolves(name: string)
    requires name == "part4004"
    ensures ResolvePart(FourPiece, name) == Some(Part4)
  {
    assert ToLower(name) == "part4004";
    LoweredFourthResolves(FourPiece, name);
  }

  /** Any name lower-casing to the third part's fragment resolves to slot 3 under a 4-piece table. */
  lemma LoweredThirdResolves(model: string, name: string)
    requires model != TwoPiece && ToLower(name) == "part3004"
    ensures ResolvePart(model, name) == Some(Part3)
  {
    var b := ToLower(name);
    assert "part3004" <= b;
    LowerNeverIncludesCapital(name, "Part1002");
    LowerNeverIncludesCapital(name, "Part2002");
    SameLengthIncludes(b, "part1002");
    SameLengthIncludes(b, "part2002");
  }

  /** Any name lower-casing to the fourth part's fragment resolves to slot 4 under a 4-piece table. */
  lemma LoweredFourthResolves(model: string, name: string)
    requires model != TwoPiece && ToLower(name) == "part4004"
    ensures ResolvePart(model, name) == Some(Part4)
  {
    var b := ToLower(name);
    assert "part4004" <= b;
    LowerNeverIncludesCapital(name, "Part1002");
    LowerNeverIncludesCapital(name, "Part2002");
    LowerNeverIncludesCapital(name, "Part3004");
    SameLengthIncludes(b, "part1002");
    SameLengthIncludes(b, "part2002");
    SameLengthIncludes(b, "part3004");
  }

  /** Under the 2-piece model, a name carrying only the second part's fragment resolves to slot 2, after the slot-1 test fails. */
  lemma SecondOfTwoPiecesResolves(name: string)
    requires name == "part2006"
    ensures ResolvePart(TwoPiece, name) == Some(Part2)
  {
    var b := ToLower(name);
    assert b == "part2006";
    assert "part2006" <= b;
    MissingCharNoMatch(b, "part1.006", 4);
    SameLengthIncludes(b, "part1006");
  }

  /** A name without any part fragment resolves to no slot. */
  lemma UnrelatedNameResolvesToNothing(name: string)
    requires name == "unrelated_prop"
    ensures ResolvePart(FourPiece, name) == None
  {
    var c := ToLower(name);
    assert c == "unrelated_prop";
    assert forall i :: 0 <= i < |c| ==> c[i] !in "1234";
    MissingCharNoMatch(c, "part1002", 4);
    MissingCharNoMatch(c, "part2002", 4);
    MissingCharNoMatch(c, "part3004", 4);
    MissingCharNoMatch(c, "part4004", 4);
    LowerNeverIncludesCapital(name, "Part1002");
    LowerNeverIncludesCapital(name, "Part2002");
    LowerNeverIncludesCapital(name, "Part3004");
    LowerNeverIncludesCapital(name, "Part4004");
  }

  /** The colour a resolved slot receives: only a matched slot whose colour setting is truthy (present and non-empty). */
  function PartColor(s: Settings, part: Option<Part>): (c: Option<Value>)
    ensures c.Some? <==> part.Some? && Truthy(Lookup(s, ColorKey(part.value)))
    ensures c.Some? ==> c.value == s[ColorKey(part.value)]
  {
    if part.Some? && Truthy(Lookup(s, ColorKey(part.value))) then Some(s[ColorKey(part.value)]) else None
  }
}
