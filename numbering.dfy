/**
 * Word list numbering: the catalog of numbering formats (`get_numbering_formats`), the
 * per-instance level counters, the rendering of a level's text template into the prefix
 * Word displays, and the shape rules for decimal prefixes (`validate_prefix_format`).
 */
module Numbering {
  import opened Wrappers
  import opened Text
  import opened Document
  import opened Patterns
  import opened Messages

  /** Level number to level definition, for one abstract definition. */
  type LevelMap = map<int, LevelDef>

  /** `numId -> level -> {fmt, lvlText}`. */
  type Catalog = map<string, LevelMap>

  /** The level map of one abstract definition: a later `w:lvl` with the same `ilvl` wins. */
  function LevelMapOf(levels: seq<LevelDef>): LevelMap
    decreases |levels|
  {
    if levels == [] then map[]
    else LevelMapOf(levels[..|levels| - 1])[levels[|levels| - 1].ilvl := levels[|levels| - 1]]
  }

  /** Abstract definition id to its level map: a later definition with the same id wins. */
  function AbstractMapOf(abstracts: seq<AbstractNum>): map<string, LevelMap>
    decreases |abstracts|
  {
    if abstracts == [] then map[]
    else
      var a := abstracts[|abstracts| - 1];
      AbstractMapOf(abstracts[..|abstracts| - 1])[a.id := LevelMapOf(a.levels)]
  }

  /** Each numbering instance gets the levels of its abstract definition, or none if it is missing. */
  function NumMapOf(nums: seq<NumDef>, abstracts: map<string, LevelMap>): Catalog
    decreases |nums|
  {
    if nums == [] then map[]
    else
      var n := nums[|nums| - 1];
      NumMapOf(nums[..|nums| - 1], abstracts)[n.numId := Bound(abstracts, n)]
  }

  /** The catalog of a document: empty without a numbering part. */
  function CatalogOf(numbering: Option<NumberingPart>): Catalog {
    match numbering
    case None => map[]
    case Some(part) => NumMapOf(part.nums, AbstractMapOf(part.abstracts))
  }

  /**
   * `get_numbering_formats`: one pass over the abstract definitions, each with an inner
   * pass over its levels, then one pass over the numbering instances.
   */
  method GetNumberingFormats(numbering: Option<NumberingPart>) returns (catalog: Catalog)
    ensures catalog == CatalogOf(numbering)
  {
    if numbering.None? {
      return map[];
    }
    var part := numbering.value;
    var abstractMap: map<string, LevelMap> := map[];
    for a := 0 to |part.abstracts|
      invariant abstractMap == AbstractMapOf(part.abstracts[..a])
    {
      var absn := part.abstracts[a];
      var levelMap: LevelMap := map[];
      for l := 0 to |absn.levels|
        invariant levelMap == LevelMapOf(absn.levels[..l])
      {
        assert absn.levels[..l + 1][..l] == absn.levels[..l];
        levelMap := levelMap[absn.levels[l].ilvl := absn.levels[l]];
      }
      assert absn.levels[..|absn.levels|] == absn.levels;
      assert part.abstracts[..a + 1][..a] == part.abstracts[..a];
      abstractMap := abstractMap[absn.id := levelMap];
    }
    assert part.abstracts[..|part.abstracts|] == part.abstracts;
    catalog := map[];
    for n := 0 to |part.nums|
      invariant catalog == NumMapOf(part.nums[..n], abstractMap)
    {
      var num := part.nums[n];
      assert part.nums[..n + 1][..n] == part.nums[..n];
      catalog := catalog[num.numId := if num.abstractId in abstractMap then abstractMap[num.abstractId] else map[]];
      assert catalog == NumMapOf(part.nums[..n + 1], abstractMap);
    }
    assert part.nums[..|part.nums|] == part.nums;
  }

  /** A level is in the map exactly when some definition has it, and the last such definition wins. */
  lemma {:induction false} LevelMapLastWins(levels: seq<LevelDef>, l: int)
    ensures l in LevelMapOf(levels) <==> exists k :: 0 <= k < |levels| && levels[k].ilvl == l
    ensures forall k :: 0 <= k < |levels| && levels[k].ilvl == l
                        && (forall k' :: k < k' < |levels| ==> levels[k'].ilvl != l)
                        ==> LevelMapOf(levels)[l] == levels[k]
    decreases |levels|
  {
    if levels != [] {
      var init := levels[..|levels| - 1];
      LevelMapLastWins(init, l);
      forall k | 0 <= k < |init| ensures init[k] == levels[k] { }
    }
  }

  /** An abstract id is in the map exactly when some definition has it, and the last one wins. */
  lemma {:induction false} AbstractMapLastWins(abstracts: seq<AbstractNum>, id: string)
    ensures id in AbstractMapOf(abstracts) <==> exists k :: 0 <= k < |abstracts| && abstracts[k].id == id
    ensures forall k :: 0 <= k < |abstracts| && abstracts[k].id == id
                        && (forall k' :: k < k' < |abstracts| ==> abstracts[k'].id != id)
                        ==> AbstractMapOf(abstracts)[id] == LevelMapOf(abstracts[k].levels)
    decreases |abstracts|
  {
    if abstracts != [] {
      var init := abstracts[..|abstracts| - 1];
      AbstractMapLastWins(init, id);
      forall k | 0 <= k < |init| ensures init[k] == abstracts[k] { }
    }
  }

  /** The levels a numbering instance declaration gets. */
  function Bound(abstracts: map<string, LevelMap>, n: NumDef): LevelMap {
    if n.abstractId in abstracts then abstracts[n.abstractId] else map[]
  }

  /**
   * A numbering instance is in the catalog exactly when it is declared; it gets the levels
   * of the abstract definition its last declaration names, or no levels if that is missing.
   */
  lemma {:induction false} NumMapLastWins(nums: seq<NumDef>, abstracts: map<string, LevelMap>, nid: string)
    ensures nid in NumMapOf(nums, abstracts) <==> exists k :: 0 <= k < |nums| && nums[k].numId == nid
    ensures forall k :: 0 <= k < |nums| && nums[k].numId == nid
                        && (forall k' :: k < k' < |nums| ==> nums[k'].numId != nid)
                        ==> NumMapOf(nums, abstracts)[nid] == Bound(abstracts, nums[k])
    decreases |nums|
  {
    if nums != [] {
      var init := nums[..|nums| - 1];
      var last := nums[|nums| - 1];
      NumMapLastWins(init, abstracts, nid);
      var m := NumMapOf(nums, abstracts);
      assert m == NumMapOf(init, abstracts)[last.numId := Bound(abstracts, last)];
      forall k | 0 <= k < |init| ensures init[k] == nums[k] { }
      forall k | 0 <= k < |nums| && nums[k].numId == nid
                 && (forall k' :: k < k' < |nums| ==> nums[k'].numId != nid)
        ensures m[nid] == Bound(abstracts, nums[k])
      {
        if k < |nums| - 1 {
          assert last.numId != nid;
          forall k' | k < k' < |init| ensures init[k'].numId != nid {
            assert init[k'] == nums[k'];
          }
        }
      }
    }
  }

  /** `num_map.get(nid, {}).get(lvl)`. */
  function LevelOf(catalog: Catalog, nid: string, lvl: int): Option<LevelDef> {
    if nid in catalog && lvl in catalog[nid] then Some(catalog[nid][lvl]) else None
  }

  /** The level counters of the list being read, keyed by numbering instance and level. */
  type Counters = map<(string, int), nat>

  /** `counters.get(key, 0)`. */
  function CountOf(counters: Counters, key: (string, int)): nat {
    if key in counters then counters[key] else 0
  }

  /**
   * A numbered paragraph at level `lvl` of instance `nid` advances that level's counter
   * and forgets every deeper level of the same instance; nothing else changes.
   */
  function Advance(counters: Counters, nid: string, lvl: int): (c: Counters)
    ensures (nid, lvl) in c && c[(nid, lvl)] == CountOf(counters, (nid, lvl)) + 1
    ensures forall k :: k in c && k.0 == nid ==> k.1 <= lvl
    ensures forall k :: k != (nid, lvl) && !(k.0 == nid && k.1 > lvl)
                        ==> (k in c <==> k in counters) && (k in c ==> c[k] == counters[k])
  {
    var bumped := counters[(nid, lvl) := CountOf(counters, (nid, lvl)) + 1];
    map k | k in bumped && !(k.0 == nid && k.1 > lvl) :: bumped[k]
  }

  /** `RU_LOWER`: the letters Word's `russianLower` format counts with (no ё, з, й, о, ч, ъ, ы, ь). */
  const RuLower: string := "абвгдежиклмнпрстуфхцшщэюя"

  /** `mk(i)`: how level `i` of instance `nid` is shown in a rendered prefix. */
  function LevelLabel(catalog: Catalog, counters: Counters, nid: string, i: int): (s: string)
    ensures |s| > 0
  {
    var cnt := if (nid, i) in counters then counters[(nid, i)] else 1;
    var fmt := match LevelOf(catalog, nid, i) case Some(d) => d.fmt case None => "decimal";
    if fmt == "russianLower" then [RuLower[(cnt + 24) % 25]] else NatToString(cnt)
  }

  /** `re.sub(r'%([1-9]\d*)', lambda m: mk(int(m.group(1)) - 1), tpl)`. */
  function Substitute(tpl: string, catalog: Catalog, counters: Counters, nid: string): string
    decreases |tpl|
  {
    if tpl == [] then []
    else if |tpl| >= 2 && tpl[0] == '%' && '1' <= tpl[1] <= '9' then
      var d := LeadingDigits(tpl[1..]);
      DigitsAfter(tpl, 1);
      LevelLabel(catalog, counters, nid, DigitsValue(tpl[1..1 + d]) - 1)
        + Substitute(tpl[1 + d..], catalog, counters, nid)
    else [tpl[0]] + Substitute(tpl[1..], catalog, counters, nid)
  }

  /** The displayed prefix: trailing dots are dropped unless the template itself ends with one. */
  function RenderPrefix(tpl: string, catalog: Catalog, counters: Counters, nid: string): string {
    var s := Substitute(tpl, catalog, counters, nid);
    if EndsWith(tpl, ".") then s else StripRightChars(s, {'.'})
  }

  /** A placeholder `%d` with a single digit `d` is replaced by level `d - 1`'s label. */
  lemma SubstitutePlaceholder(tpl: string, catalog: Catalog, counters: Counters, nid: string)
    requires |tpl| >= 2 && tpl[0] == '%' && '1' <= tpl[1] <= '9'
    requires |tpl| == 2 || !IsDigit(tpl[2])
    ensures Substitute(tpl, catalog, counters, nid)
            == LevelLabel(catalog, counters, nid, DigitValue(tpl[1]) - 1) + Substitute(tpl[2..], catalog, counters, nid)
  {
    assert LeadingDigits(tpl[1..]) == 1 by {
      assert tpl[1..][1..] == tpl[2..];
    }
    assert DigitsValue(tpl[1..2]) == DigitValue(tpl[1]) by {
      assert tpl[1..2] == [tpl[1]];
      assert tpl[1..2][..0] == [];
    }
    SubstituteUnfold(tpl, catalog, counters, nid, 1, DigitValue(tpl[1]));
  }

  /** A placeholder whose number has `d` digits and the value `v` is replaced by level `v - 1`'s label. */
  lemma SubstituteUnfold(tpl: string, catalog: Catalog, counters: Counters, nid: string, d: nat, v: nat)
    requires |tpl| >= 2 && tpl[0] == '%' && '1' <= tpl[1] <= '9'
    requires d == LeadingDigits(tpl[1..]) && AllDigits(tpl[1..1 + d]) && v == DigitsValue(tpl[1..1 + d])
    ensures Substitute(tpl, catalog, counters, nid)
            == LevelLabel(catalog, counters, nid, v - 1) + Substitute(tpl[1 + d..], catalog, counters, nid)
  {
  }

  /** A decimal level with a count shows the count. */
  lemma DecimalLabel(catalog: Catalog, counters: Counters, nid: string, i: int, c: nat)
    requires (nid, i) in counters && counters[(nid, i)] == c
    requires LevelOf(catalog, nid, i).None? || LevelOf(catalog, nid, i).value.fmt == "decimal"
    ensures LevelLabel(catalog, counters, nid, i) == NatToString(c)
  {
  }

  /** With decimal levels, "%1." shows the first level's count followed by a dot. */
  lemma RenderFirstLevel(catalog: Catalog, counters: Counters, nid: string, c: nat)
    requires (nid, 0) in counters && counters[(nid, 0)] == c
    requires LevelOf(catalog, nid, 0).None? || LevelOf(catalog, nid, 0).value.fmt == "decimal"
    ensures RenderPrefix("%1.", catalog, counters, nid) == NatToString(c) + "."
  {
    var tpl := "%1.";
    SubstitutePlaceholder(tpl, catalog, counters, nid);
    DecimalLabel(catalog, counters, nid, 0, c);
    assert tpl[2..] == ".";
    assert Substitute(".", catalog, counters, nid) == ".";
  }

  /** The template Word writes for a second level: "%1.%2". */
  predicate SecondLevelTemplate(tpl: string) {
    |tpl| == 5 && tpl[0] == '%' && tpl[1] == '1' && tpl[2] == '.' && tpl[3] == '%' && tpl[4] == '2'
  }

  /** With decimal levels, "%1.%2" shows the two counts joined by a dot. */
  lemma RenderSecondLevel(tpl: string, catalog: Catalog, counters: Counters, nid: string, c1: nat, c2: nat)
    requires SecondLevelTemplate(tpl)
    requires (nid, 0) in counters && counters[(nid, 0)] == c1
    requires (nid, 1) in counters && counters[(nid, 1)] == c2
    requires LevelOf(catalog, nid, 0).None? || LevelOf(catalog, nid, 0).value.fmt == "decimal"
    requires LevelOf(catalog, nid, 1).None? || LevelOf(catalog, nid, 1).value.fmt == "decimal"
    ensures RenderPrefix(tpl, catalog, counters, nid) == JoinDots([c1, c2])
  {
    RenderSecondText(tpl, catalog, counters, nid, c1, c2);
    JoinTwo(c1, c2);
  }

  lemma RenderSecondText(tpl: string, catalog: Catalog, counters: Counters, nid: string, c1: nat, c2: nat)
    requires SecondLevelTemplate(tpl)
    requires (nid, 0) in counters && counters[(nid, 0)] == c1
    requires (nid, 1) in counters && counters[(nid, 1)] == c2
    requires LevelOf(catalog, nid, 0).None? || LevelOf(catalog, nid, 0).value.fmt == "decimal"
    requires LevelOf(catalog, nid, 1).None? || LevelOf(catalog, nid, 1).value.fmt == "decimal"
    ensures RenderPrefix(tpl, catalog, counters, nid) == NatToString(c1) + ("." + NatToString(c2))
  {
    var s := Substitute(tpl, catalog, counters, nid);
    var tail := NatToString(c2);
    assert s == NatToString(c1) + ("." + tail) by {
      SubstituteTwo(tpl, catalog, counters, nid, c1, c2);
    }
    assert EndsWith(s, tail) by {
      EndsWithAppend(NatToString(c1) + ".", tail);
      assert NatToString(c1) + ("." + tail) == NatToString(c1) + "." + tail;
    }
    assert StripRightChars(s, {'.'}) == s by {
      NoFinalDot(s, tail);
    }
    assert !EndsWith(tpl, ".") by {
      assert tpl[|tpl| - 1..] == [tpl[4]];
    }
  }

  lemma SubstituteTwo(tpl: string, catalog: Catalog, counters: Counters, nid: string, c1: nat, c2: nat)
    requires SecondLevelTemplate(tpl)
    requires (nid, 0) in counters && counters[(nid, 0)] == c1
    requires (nid, 1) in counters && counters[(nid, 1)] == c2
    requires LevelOf(catalog, nid, 0).None? || LevelOf(catalog, nid, 0).value.fmt == "decimal"
    requires LevelOf(catalog, nid, 1).None? || LevelOf(catalog, nid, 1).value.fmt == "decimal"
    ensures Substitute(tpl, catalog, counters, nid) == NatToString(c1) + ("." + NatToString(c2))
  {
    var rest := tpl[2..];
    assert Substitute(tpl, catalog, counters, nid) == LevelLabel(catalog, counters, nid, 0) + Substitute(rest, catalog, counters, nid) by {
      SubstitutePlaceholder(tpl, catalog, counters, nid);
    }
    assert LevelLabel(catalog, counters, nid, 0) == NatToString(c1) by {
      DecimalLabel(catalog, counters, nid, 0, c1);
    }
    assert Substitute(rest, catalog, counters, nid) == "." + NatToString(c2) by {
      SecondPlaceholder(rest, catalog, counters, nid, c2);
    }
  }

  lemma SecondPlaceholder(rest: string, catalog: Catalog, counters: Counters, nid: string, c2: nat)
    requires |rest| == 3 && rest[0] == '.' && rest[1] == '%' && rest[2] == '2'
    requires (nid, 1) in counters && counters[(nid, 1)] == c2
    requires LevelOf(catalog, nid, 1).None? || LevelOf(catalog, nid, 1).value.fmt == "decimal"
    ensures Substitute(rest, catalog, counters, nid) == "." + NatToString(c2)
  {
    var second := rest[1..];
    SubstitutePlaceholder(second, catalog, counters, nid);
    DecimalLabel(catalog, counters, nid, 1, c2);
    assert second[2..] == "";
  }

  lemma JoinTwo(c1: nat, c2: nat)
    ensures JoinDots([c1, c2]) == NatToString(c1) + ("." + NatToString(c2))
  {
    JoinPair(c1, c2);
    DotAssoc(NatToString(c1), NatToString(c2));
  }

  lemma JoinPair(c1: nat, c2: nat)
    ensures JoinDots([c1, c2]) == NatToString(c1) + "." + NatToString(c2)
  {
    JoinDotsCons([c1, c2]);
    assert [c1, c2][1..] == [c2];
  }

  lemma DotAssoc(h: string, t: string)
    ensures h + "." + t == h + ("." + t)
  {
  }

  lemma EndsWithAppend(a: string, b: string)
    ensures EndsWith(a + b, b)
  {
    assert (a + b)[|a|..] == b;
  }

  lemma NoFinalDot(s: string, digits: string)
    requires AllDigits(digits) && EndsWith(s, digits)
    ensures StripRightChars(s, {'.'}) == s
  {
    assert s[|s| - 1] == digits[|digits| - 1];
  }

  /** `re.match(...$)` accepts the end of the text or a final newline. */
  predicate AtEnd(s: string, n: nat) {
    n == |s| || (n + 1 == |s| && s[n] == '\n')
  }

  /** The nesting depth a decimal prefix claims: its dots, plus one unless it ends with a dot. */
  function PrefixLevel(prefix: string): nat {
    if EndsWith(prefix, ".") then CountChar(prefix, '.') else CountChar(prefix, '.') + 1
  }

  /** `\d+\.$`: a first-level prefix such as "3.". */
  predicate FirstLevelShape(prefix: string) {
    var d := LeadingDigits(prefix);
    d > 0 && d < |prefix| && prefix[d] == '.' && AtEnd(prefix, d + 1)
  }

  /** `\d+(?:\.\d+){level-1}$`: a deeper prefix such as "3.1" or "3.1.2", without a final dot. */
  predicate NestedShape(prefix: string, level: nat) {
    var n := NumberToken(prefix);
    n > 0 && CountChar(prefix[..n], '.') + 1 == level && AtEnd(prefix, n)
  }

  /** `validate_prefix_format`: the message for a prefix of the given format, if it is wrong. */
  function PrefixMessage(prefix: string, fmt: Option<string>): (msg: Option<Msg>)
    ensures fmt != Some("decimal") ==> msg == Some(NonDecimalFormat)
    ensures fmt == Some("decimal") && PrefixLevel(prefix) > 3 ==> msg == Some(PrefixTooDeep(prefix))
    ensures msg.None? ==> fmt == Some("decimal") && 1 <= PrefixLevel(prefix) <= 3
  {
    if fmt != Some("decimal") then Some(NonDecimalFormat)
    else
      var level := PrefixLevel(prefix);
      if level == 1 then
        if FirstLevelShape(prefix) then None else Some(FirstLevelPrefix(prefix))
      else if level == 2 || level == 3 then
        if NestedShape(prefix, level) then None else Some(NestedPrefix(prefix, level))
      else Some(PrefixTooDeep(prefix))
  }

  /** Every accepted decimal prefix starts with a digit. */
  lemma AcceptedStartsWithDigit(prefix: string, fmt: Option<string>)
    requires PrefixMessage(prefix, fmt).None?
    ensures |prefix| > 0 && IsDigit(prefix[0])
  {
    if FirstLevelShape(prefix) {
      assert LeadingDigits(prefix) > 0;
    } else {
      assert NumberToken(prefix) > 0;
    }
  }

  lemma ShapeAccepted(p: string)
    requires PrefixLevel(p) == 1 ==> FirstLevelShape(p)
    requires PrefixLevel(p) == 2 || PrefixLevel(p) == 3 ==> NestedShape(p, PrefixLevel(p))
    requires 1 <= PrefixLevel(p) <= 3
    ensures PrefixMessage(p, Some("decimal")).None?
  {
  }

  /** A written-out count followed by a dot is an accepted first-level prefix. */
  lemma FirstLevelAccepted(c: nat)
    ensures PrefixMessage(NatToString(c) + ".", Some("decimal")).None?
  {
    FirstLevelLevel(c);
    FirstLevelShaped(c);
    ShapeAccepted(NatToString(c) + ".");
  }

  lemma FirstLevelLevel(c: nat)
    ensures PrefixLevel(NatToString(c) + ".") == 1
  {
    var s := NatToString(c);
    NoDotInDigits(s);
    CountAppend(s, ".", '.');
    assert EndsWith(s + ".", ".");
  }

  lemma FirstLevelShaped(c: nat)
    ensures FirstLevelShape(NatToString(c) + ".")
  {
    var s := NatToString(c);
    DigitsThen(s, ".");
  }

  /** Two or three counts joined by dots form an accepted nested prefix. */
  lemma NestedAccepted(nums: seq<nat>)
    requires 2 <= |nums| <= 3
    ensures PrefixMessage(JoinDots(nums), Some("decimal")).None?
  {
    var p := JoinDots(nums);
    NestedLevel(nums);
    NestedTokenShape(nums);
    ShapeAccepted(p);
  }

  lemma NestedLevel(nums: seq<nat>)
    requires |nums| >= 1
    ensures PrefixLevel(JoinDots(nums)) == |nums|
  {
    var p := JoinDots(nums);
    assert !EndsWith(p, ".") by {
      assert IsDigit(p[|p| - 1]);
    }
  }

  lemma NestedTokenShape(nums: seq<nat>)
    requires |nums| >= 1
    ensures NestedShape(JoinDots(nums), |nums|)
  {
    var p := JoinDots(nums);
    JoinDotsToken(nums, "");
    assert p + "" == p;
    assert p[..|p|] == p;
  }

  /** Nesting deeper than three levels is always reported. */
  lemma DeepPrefixRejected(prefix: string)
    requires CountChar(prefix, '.') >= 4
    ensures PrefixMessage(prefix, Some("decimal")) == Some(PrefixTooDeep(prefix))
  {
  }
}
