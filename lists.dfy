/**
 * The checks of ordinary lists (`validate_lists`): the paragraph pass that tells list
 * paragraphs their font and typed markers, the group pass that checks how the items of
 * each list end and how they are set, and the order pass over numbered groups.
 */
module Lists {
  import opened Wrappers
  import opened Text
  import opened Patterns
  import opened Document
  import opened Messages
  import opened Errors
  import opened Numbering
  import opened Extraction
  import opened ListTree
  import opened Resources

  /** `create_excluded_paragraphs`: every paragraph some other pass claims. */
  function ExcludedParagraphs(headings: seq<nat>, structural: seq<nat>, appendices: seq<nat>, listings: seq<nat>,
                              tableCaptions: seq<nat>, imageCaptions: seq<nat>, code: seq<nat>): set<nat>
  {
    (set i | i in headings) + (set i | i in structural) + (set i | i in appendices) + (set i | i in listings)
    + (set i | i in tableCaptions) + (set i | i in imageCaptions) + (set i | i in code)
  }

  /** A 14 pt or 16 pt bold run: the sign of a heading set as a list. */
  predicate HeadingLikeRun(r: Run) {
    (r.size == Some(28) || r.size == Some(32)) && IsTrue(r.bold)
  }

  predicate PotentialHeading(p: Paragraph) {
    exists k :: 0 <= k < |p.runs| && Visible(p.runs[k]) && HeadingLikeRun(p.runs[k])
  }

  /** Some visible run is 16 pt. */
  predicate HasHeadingSize(p: Paragraph) {
    exists k :: 0 <= k < |p.runs| && Visible(p.runs[k]) && p.runs[k].size == Some(32)
  }

  /**
   * `is_textual_list`: a paragraph not numbered by Word, not claimed by another pass,
   * that is no caption, title, code or heading and starts with a typed list marker.
   */
  predicate IsTextualList(p: Paragraph, i: nat, excluded: set<nat>) {
    var t := TextOf(p);
    p.numbering.None? && i !in excluded && t != ""
    && !CaptionOrTitle(t) && !IsCode(p)
    && !HasBold(p) && !HasHeadingSize(p) && !HeadingShape(t)
    && TextualMarker(t)
  }

  // ---------------------------------------------------------------------------------
  // The paragraph pass.

  /** What the pass makes of one paragraph: its messages, and whether it is a list or code. */
  datatype Verdict = Verdict(msgs: seq<Msg>, isList: bool, isCode: bool)

  function HeadingRunMessages(r: Run): seq<Msg> {
    When(HeadingLikeRun(r), ListPotentialHeading)
  }

  /** Times New Roman, 14 pt, no emphasis. */
  function ListRunMessages(r: Run): seq<Msg> {
    When(r.font != Some(TimesNewRoman), ListFont)
    + When(r.size != Some(28), ListFontSize)
    + When(IsTrue(r.italic) || IsTrue(r.underline) || IsTrue(r.bold), ListEmphasis)
  }

  /** The loop body of the paragraph pass for the paragraph at `i`. */
  function ParagraphVerdict(p: Paragraph, i: nat, excluded: set<nat>, resources: set<nat>): Verdict {
    var t := TextOf(p);
    if t == "" || i in excluded || i in resources then Verdict([], false, false)
    else
      var ds := When(HasDoubleSpace(t), DoubleSpaces);
      if CaptionOrTitle(t) || HeadingShape(t) then Verdict(ds, false, false)
      else if IsCode(p) then Verdict(ds, false, true)
      else if !(p.numbering.Some? || IsTextualList(p, i, excluded)) then Verdict(ds, false, false)
      else if !HasBold(p) then Verdict(ds + When(IsTextualList(p, i, excluded), TextualList), true, false)
      else Verdict(ds + BoldMessages(p), true, false)
  }

  /** A bold list paragraph: heading-like runs are told so, and only when there are none, the font. */
  function BoldMessages(p: Paragraph): seq<Msg> {
    var hm := RunMessages(p.runs, HeadingRunMessages);
    if hm != [] then hm else RunMessages(p.runs, ListRunMessages)
  }

  lemma BoldNotTextual(p: Paragraph)
    ensures TextualList !in BoldMessages(p)
  {
    RunMessagesHas(p.runs, HeadingRunMessages, TextualList);
    RunMessagesHas(p.runs, ListRunMessages, TextualList);
  }

  /** A paragraph is told it uses a typed list exactly when it is one (and no resource item). */
  lemma TextualListReported(p: Paragraph, i: nat, excluded: set<nat>, resources: set<nat>)
    requires i !in resources
    ensures TextualList in ParagraphVerdict(p, i, excluded, resources).msgs <==> IsTextualList(p, i, excluded)
    ensures IsTextualList(p, i, excluded) ==> ParagraphVerdict(p, i, excluded, resources).isList
  {
    BoldNotTextual(p);
  }

  /**
   * A bold list paragraph that looks like a heading is told so and nothing about its
   * font; one that does not is told of every visible run in a wrong font.
   */
  lemma HeadingLikeSkipsFont(p: Paragraph)
    ensures PotentialHeading(p) ==> ListPotentialHeading in BoldMessages(p) && ListFont !in BoldMessages(p)
    ensures !PotentialHeading(p) ==>
      (ListFont in BoldMessages(p)
       <==> exists k :: 0 <= k < |p.runs| && Visible(p.runs[k]) && p.runs[k].font != Some(TimesNewRoman))
  {
    var hm := RunMessages(p.runs, HeadingRunMessages);
    RunMessagesHas(p.runs, HeadingRunMessages, ListPotentialHeading);
    RunMessagesHas(p.runs, HeadingRunMessages, ListFont);
    RunMessagesHas(p.runs, ListRunMessages, ListFont);
    if PotentialHeading(p) {
      var k :| 0 <= k < |p.runs| && Visible(p.runs[k]) && HeadingLikeRun(p.runs[k]);
      assert ListPotentialHeading in HeadingRunMessages(p.runs[k]);
    } else {
      assert hm == [];
    }
  }

  /** How the pass judges the paragraph at position `i`. */
  type Judge = (seq<Paragraph>, nat) -> Verdict

  function JudgeOf(excluded: set<nat>, resources: set<nat>): Judge {
    (ps: seq<Paragraph>, i: nat) =>
      if i < |ps| then ParagraphVerdict(ps[i], i, excluded, resources) else Verdict([], false, false)
  }

  /** The issues, list paragraphs and code paragraphs of the pass. */
  datatype Pass = Pass(issues: seq<Issue>, lists: set<nat>, code: seq<nat>)

  /** The pass over the first `n` paragraphs; messages are placed at the paragraph's own position. */
  function PassUpTo(ps: seq<Paragraph>, judge: Judge, n: nat): Pass
    requires n <= |ps|
  {
    if n == 0 then Pass([], {}, [])
    else
      var prev := PassUpTo(ps, judge, n - 1);
      var v := judge(ps, n - 1);
      Pass(prev.issues + ParagraphIssues(ps[n - 1].text, n - 1, v.msgs),
           if v.isList then prev.lists + {n - 1} else prev.lists,
           if v.isCode then prev.code + [n - 1] else prev.code)
  }

  /** The pass lists exactly the paragraphs judged to be lists. */
  lemma {:induction false} PassLists(ps: seq<Paragraph>, judge: Judge, n: nat)
    requires n <= |ps|
    ensures forall i: nat :: i in PassUpTo(ps, judge, n).lists <==> i < n && judge(ps, i).isList
  {
    if n > 0 {
      PassLists(ps, judge, n - 1);
    }
  }

  /** The paragraph pass of `validate_lists`. */
  method ScanParagraphs(ps: seq<Paragraph>, judge: Judge) returns (issues: seq<Issue>, lists: set<nat>, code: seq<nat>)
    ensures Pass(issues, lists, code) == PassUpTo(ps, judge, |ps|)
  {
    issues, lists, code := [], {}, [];
    for i := 0 to |ps|
      invariant Pass(issues, lists, code) == PassUpTo(ps, judge, i)
    {
      var v := judge(ps, i);
      issues := issues + ParagraphIssues(ps[i].text, i, v.msgs);
      if v.isList {
        lists := lists + {i};
      }
      if v.isCode {
        code := code + [i];
      }
    }
  }

  // ---------------------------------------------------------------------------------
  // How the items of a list end.

  const AllowedEnd: set<char> := {',', ';'}

  /** An item for the end rule: its text, whether it looks like a heading, and its paragraph. */
  datatype EndItem = EndItem(content: string, skip: bool, index: nat)

  /** A message about the paragraph at `index`. */
  datatype Flag = Flag(index: nat, msg: Msg)

  /** `end_char` and the flags so far. */
  datatype Ends = Ends(end: Option<char>, flags: seq<Flag>)

  function Last(s: string): char
    requires s != []
  {
    s[|s| - 1]
  }

  /**
   * The item at `ind` of `len`: the first of several ends with `,` or `;` and sets the
   * character the others must repeat, the last ends with `.`, and one in between repeats
   * the character in force (`,` when the first gave none it could use).
   */
  function EndStep(st: Ends, it: EndItem, ind: nat, len: nat): Ends {
    var c := it.content;
    if it.skip then st
    else if ind == 0 && len > 1 then
      Ends(if c != [] && Last(c) in AllowedEnd then Some(Last(c)) else None,
           st.flags + (if c != [] && Last(c) !in AllowedEnd then [Flag(it.index, FirstItemEnd)] else []))
    else if ind == len - 1 then
      Ends(st.end, st.flags + (if c != [] && !EndsWith(c, ".") then [Flag(it.index, LastItemEnd)] else []))
    else
      var end := if st.end.None? && c != [] then Some(if Last(c) in AllowedEnd then Last(c) else ',') else st.end;
      Ends(end, st.flags + (if c != [] && end.Some? && !EndsWith(c, [end.value]) then [Flag(it.index, MiddleItemEnd)] else []))
  }

  function EndsUpTo(items: seq<EndItem>, n: nat): Ends
    requires n <= |items|
  {
    if n == 0 then Ends(None, []) else EndStep(EndsUpTo(items, n - 1), items[n - 1], n - 1, |items|)
  }

  /** The end rule over one list. */
  method CheckEnds(items: seq<EndItem>) returns (flags: seq<Flag>)
    ensures flags == EndsUpTo(items, |items|).flags
  {
    var end: Option<char> := None;
    flags := [];
    for ind := 0 to |items|
      invariant Ends(end, flags) == EndsUpTo(items, ind)
    {
      var c := items[ind].content;
      if items[ind].skip {
        continue;
      }
      if ind == 0 && |items| > 1 {
        if c != [] && Last(c) !in AllowedEnd {
          flags := flags + [Flag(items[ind].index, FirstItemEnd)];
        }
        end := if c != [] && Last(c) in AllowedEnd then Some(Last(c)) else None;
      } else if ind == |items| - 1 {
        if c != [] && !EndsWith(c, ".") {
          flags := flags + [Flag(items[ind].index, LastItemEnd)];
        }
      } else {
        if end.None? && c != [] {
          end := Some(if Last(c) in AllowedEnd then Last(c) else ',');
        }
        if c != [] && end.Some? && !EndsWith(c, [end.value]) {
          flags := flags + [Flag(items[ind].index, MiddleItemEnd)];
        }
      }
    }
  }

  /** A list punctuated throughout with the character its first item ends with. */
  predicate Punctuated(items: seq<EndItem>, e: char) {
    |items| > 1 && e in AllowedEnd
    && (forall k :: 0 <= k < |items| ==> !items[k].skip && items[k].content != [])
    && (forall k :: 0 <= k < |items| - 1 ==> Last(items[k].content) == e)
    && EndsWith(items[|items| - 1].content, ".")
  }

  /** A consistently punctuated list draws no message about how its items end. */
  lemma {:induction false} PunctuatedClean(items: seq<EndItem>, e: char, n: nat)
    requires Punctuated(items, e) && 0 < n <= |items|
    ensures EndsUpTo(items, n) == Ends(Some(e), [])
  {
    if n > 1 {
      PunctuatedClean(items, e, n - 1);
      var c := items[n - 1].content;
      if n - 1 < |items| - 1 {
        assert c == c[..|c| - 1] + [e];
      }
    }
  }

  lemma PunctuatedNoFlags(items: seq<EndItem>, e: char)
    requires Punctuated(items, e)
    ensures EndsUpTo(items, |items|).flags == []
  {
    PunctuatedClean(items, e, |items|);
  }

  /** After a first item ending with `,`, a middle item ending with `;` is flagged and nothing else. */
  lemma MixedEndFlagged(a: string, b: string, c: string, i: nat, j: nat, k: nat)
    requires a != [] && Last(a) == ',' && b != [] && Last(b) == ';' && c != [] && Last(c) == '.'
    ensures EndsUpTo([EndItem(a, false, i), EndItem(b, false, j), EndItem(c, false, k)], 3).flags
            == [Flag(j, MiddleItemEnd)]
  {
    var items := [EndItem(a, false, i), EndItem(b, false, j), EndItem(c, false, k)];
    assert EndsUpTo(items, 1) == Ends(Some(','), []);
    assert !EndsWith(b, [',']);
    assert EndsUpTo(items, 2) == Ends(Some(','), [Flag(j, MiddleItemEnd)]);
    assert EndsWith(c, ".") by {
      assert c == c[..|c| - 1] + ['.'];
    }
  }

  /** A first item of several that ends with neither `,` nor `;` is flagged first. */
  lemma FirstFlagged(items: seq<EndItem>)
    requires |items| > 1 && !items[0].skip && items[0].content != [] && Last(items[0].content) !in AllowedEnd
    ensures EndsUpTo(items, 1) == Ends(None, [Flag(items[0].index, FirstItemEnd)])
  {
  }

  // ---------------------------------------------------------------------------------
  // The group pass.

  /** An item the group pass keeps: not claimed elsewhere, no resource, caption, title or heading. */
  predicate Kept(ps: seq<Paragraph>, it: Item, excluded: set<nat>, resources: set<nat>) {
    it.index < |ps| && it.index !in excluded && it.index !in resources
    && !CaptionOrTitle(TextOf(ps[it.index])) && !HeadingShape(TextOf(ps[it.index]))
  }

  /** The items of the first `n` of `g` that are kept, in order. */
  function KeptUpTo(ps: seq<Paragraph>, g: Group, excluded: set<nat>, resources: set<nat>, n: nat): (kept: Group)
    requires n <= |g|
    ensures forall k :: 0 <= k < |kept| ==> Kept(ps, kept[k], excluded, resources)
  {
    if n == 0 then []
    else KeptUpTo(ps, g, excluded, resources, n - 1) + (if Kept(ps, g[n - 1], excluded, resources) then [g[n - 1]] else [])
  }

  /** The kept items as the end rule sees them. */
  function EndItemsOf(ps: seq<Paragraph>, kept: Group): (items: seq<EndItem>)
    ensures |items| == |kept|
  {
    seq(|kept|, k requires 0 <= k < |kept| =>
      EndItem(kept[k].text, kept[k].index < |ps| && PotentialHeading(ps[kept[k].index]), kept[k].index))
  }

  /** How a list paragraph is set: 1.25 cm indent, no right indent or spacing, justified, 1.5 lines. */
  function LayoutMessages(p: Paragraph): seq<Msg> {
    When(IndentNot125cm(p), ListFirstIndent) + When(SideIndentSet(p.rightIndent), ListRightIndent)
    + When(SpacingSet(p), ListSpacing) + When(p.alignment != AlignJustify, ListAlignment)
    + When(SpacingNot15(p), ListLineSpacing)
  }

  /** A flag as an issue, placed at the first paragraph with the same content. */
  function FlagIssues(ps: seq<Paragraph>, flags: seq<Flag>, n: nat): seq<Issue>
    requires n <= |flags|
  {
    if n == 0 then []
    else
      var f := flags[n - 1];
      FlagIssues(ps, flags, n - 1)
      + (if f.index < |ps| then [ParagraphIssue(ps[f.index].text, IndexByContent(ps, f.index), f.msg)] else [])
  }

  /** The layout issues of the first `n` kept items that do not look like headings. */
  function LayoutIssues(ps: seq<Paragraph>, kept: Group, n: nat): seq<Issue>
    requires n <= |kept|
  {
    if n == 0 then [] else LayoutIssues(ps, kept, n - 1) + ItemLayoutIssues(ps, kept[n - 1].index)
  }

  /** The layout checks of one kept item; a paragraph that may be a heading is left to the headings. */
  function ItemLayoutIssues(ps: seq<Paragraph>, i: nat): seq<Issue> {
    if i < |ps| && !PotentialHeading(ps[i])
    then ParagraphIssues(ps[i].text, IndexByContent(ps, i), LayoutMessages(ps[i]))
    else []
  }

  /** The issues of one group: how its kept items end, then how they are set. */
  function GroupListIssues(ps: seq<Paragraph>, g: Group, excluded: set<nat>, resources: set<nat>): seq<Issue> {
    var kept := KeptUpTo(ps, g, excluded, resources, |g|);
    if kept == [] then []
    else
      var flags := EndsUpTo(EndItemsOf(ps, kept), |kept|).flags;
      FlagIssues(ps, flags, |flags|) + LayoutIssues(ps, kept, |kept|)
  }

  function GroupsIssues(ps: seq<Paragraph>, groups: seq<Group>, excluded: set<nat>, resources: set<nat>, n: nat): seq<Issue>
    requires n <= |groups|
  {
    if n == 0 then []
    else GroupsIssues(ps, groups, excluded, resources, n - 1) + GroupListIssues(ps, groups[n - 1], excluded, resources)
  }

  /** The items of the groups that are neither claimed elsewhere nor resources. */
  function GroupParagraphs(groups: seq<Group>, excluded: set<nat>, resources: set<nat>): (r: set<nat>)
    ensures forall i :: i in r <==>
      (i !in excluded && i !in resources && exists g: Group, k :: g in groups && 0 <= k < |g| && g[k].index == i)
  {
    set g: Group, k | g in groups && 0 <= k < |g| && g[k].index !in excluded && g[k].index !in resources :: g[k].index
  }

  method CheckGroup(ps: seq<Paragraph>, g: Group, excluded: set<nat>, resources: set<nat>) returns (issues: seq<Issue>)
    ensures issues == GroupListIssues(ps, g, excluded, resources)
  {
    var kept := KeepItems(ps, g, excluded, resources);
    if kept == [] {
      return [];
    }
    var flags := CheckEnds(EndItemsOf(ps, kept));
    var told := TellFlags(ps, flags);
    var layout := TellLayout(ps, kept);
    issues := told + layout;
  }

  /** The four filters of the group pass. */
  method KeepItems(ps: seq<Paragraph>, g: Group, excluded: set<nat>, resources: set<nat>) returns (kept: Group)
    ensures kept == KeptUpTo(ps, g, excluded, resources, |g|)
  {
    kept := [];
    for i := 0 to |g|
      invariant kept == KeptUpTo(ps, g, excluded, resources, i)
    {
      if Kept(ps, g[i], excluded, resources) {
        kept := kept + [g[i]];
      }
    }
  }

  method TellFlags(ps: seq<Paragraph>, flags: seq<Flag>) returns (issues: seq<Issue>)
    ensures issues == FlagIssues(ps, flags, |flags|)
  {
    issues := [];
    for k := 0 to |flags|
      invariant issues == FlagIssues(ps, flags, k)
    {
      var f := flags[k];
      if f.index < |ps| {
        issues := issues + [ParagraphIssue(ps[f.index].text, IndexByContent(ps, f.index), f.msg)];
      }
    }
  }

  /** The loop of layout checks over the kept items. */
  method TellLayout(ps: seq<Paragraph>, kept: Group) returns (issues: seq<Issue>)
    ensures issues == LayoutIssues(ps, kept, |kept|)
  {
    issues := [];
    for k := 0 to |kept|
      invariant issues == LayoutIssues(ps, kept, k)
    {
      issues := issues + ItemLayoutIssues(ps, kept[k].index);
    }
  }

  /** The group pass of `validate_lists`. */
  method CheckGroups(ps: seq<Paragraph>, groups: seq<Group>, excluded: set<nat>, resources: set<nat>) returns (issues: seq<Issue>)
    ensures issues == GroupsIssues(ps, groups, excluded, resources, |groups|)
  {
    issues := [];
    for n := 0 to |groups|
      invariant issues == GroupsIssues(ps, groups, excluded, resources, n)
    {
      var found := CheckGroup(ps, groups[n], excluded, resources);
      issues := issues + found;
    }
  }

  // ---------------------------------------------------------------------------------
  // The order pass.

  /** `num_map.get(nid, {}).get(lvl, {}).get('fmt')`. */
  function FormatOf(catalog: Catalog, r: NumRef): Option<string> {
    match LevelOf(catalog, r.numId, r.level)
    case Some(d) => Some(d.fmt)
    case None => None
  }

  /** A Word-numbered item, not claimed elsewhere, whose level is not a bullet. */
  predicate NumberedItem(ps: seq<Paragraph>, catalog: Catalog, excluded: set<nat>, it: Item) {
    it.index < |ps| && ps[it.index].numbering.Some? && it.index !in excluded
    && FormatOf(catalog, ps[it.index].numbering.value) != Some("bullet")
  }

  predicate NumberedGroup(ps: seq<Paragraph>, catalog: Catalog, excluded: set<nat>, g: Group) {
    exists k :: 0 <= k < |g| && NumberedItem(ps, catalog, excluded, g[k])
  }

  /** The first `n` items of `g` not claimed elsewhere. */
  function Unexcluded(g: Group, excluded: set<nat>, n: nat): (r: Group)
    requires n <= |g|
    ensures forall k :: 0 <= k < |r| ==> r[k].index !in excluded
  {
    if n == 0 then []
    else Unexcluded(g, excluded, n - 1) + (if g[n - 1].index in excluded then [] else [g[n - 1]])
  }

  /** The numbered groups among the first `n`, each without its excluded items. */
  function NumberedGroups(ps: seq<Paragraph>, catalog: Catalog, groups: seq<Group>, excluded: set<nat>, n: nat): seq<Group>
    requires n <= |groups|
  {
    if n == 0 then []
    else
      var g := groups[n - 1];
      NumberedGroups(ps, catalog, groups, excluded, n - 1)
      + (if NumberedGroup(ps, catalog, excluded, g) then [Unexcluded(g, excluded, |g|)] else [])
  }

  /** One numbering error as an issue, unless its paragraph is claimed, a resource or heading-like. */
  function OrderIssue(ps: seq<Paragraph>, e: OrderError, excluded: set<nat>, resources: set<nat>): seq<Issue> {
    if e.index >= |ps| || e.index in excluded || e.index in resources || PotentialHeading(ps[e.index]) then []
    else [ParagraphIssue(ps[e.index].text, IndexByContent(ps, e.index), ListOrder)]
  }

  function OrderIssues(ps: seq<Paragraph>, errors: seq<OrderError>, excluded: set<nat>, resources: set<nat>, n: nat): seq<Issue>
    requires n <= |errors|
  {
    if n == 0 then []
    else OrderIssues(ps, errors, excluded, resources, n - 1) + OrderIssue(ps, errors[n - 1], excluded, resources)
  }

  /** The groups of the order pass, built with the early exit of the bullet test. */
  method CollectNumbered(ps: seq<Paragraph>, catalog: Catalog, groups: seq<Group>, excluded: set<nat>) returns (numbered: seq<Group>)
    ensures numbered == NumberedGroups(ps, catalog, groups, excluded, |groups|)
  {
    numbered := [];
    for n := 0 to |groups|
      invariant numbered == NumberedGroups(ps, catalog, groups, excluded, n)
    {
      var g := groups[n];
      var isBullet := true;
      var k := 0;
      while k < |g| && isBullet
        invariant k <= |g|
        invariant isBullet <==> forall j :: 0 <= j < k ==> !NumberedItem(ps, catalog, excluded, g[j])
        invariant !isBullet ==> NumberedGroup(ps, catalog, excluded, g)
      {
        if NumberedItem(ps, catalog, excluded, g[k]) {
          isBullet := false;
        }
        k := k + 1;
      }
      if !isBullet {
        var kept: Group := [];
        for j := 0 to |g|
          invariant kept == Unexcluded(g, excluded, j)
        {
          if g[j].index !in excluded {
            kept := kept + [g[j]];
          }
        }
        numbered := numbered + [kept];
      }
    }
  }

  method ReportOrder(ps: seq<Paragraph>, errors: seq<OrderError>, excluded: set<nat>, resources: set<nat>) returns (issues: seq<Issue>)
    ensures issues == OrderIssues(ps, errors, excluded, resources, |errors|)
  {
    issues := [];
    for n := 0 to |errors|
      invariant issues == OrderIssues(ps, errors, excluded, resources, n)
    {
      issues := issues + OrderIssue(ps, errors[n], excluded, resources);
    }
  }

  // ---------------------------------------------------------------------------------
  // The whole check.

  /** The issues `validate_lists` reports, in order: extraction, resources, paragraphs, groups, order. */
  function ListIssues(doc: Doc, excluded: set<nat>): seq<Issue> {
    var x := Extract(doc);
    var ps := doc.paragraphs;
    var resources := ResourceParagraphs(x.resourceGroups, excluded);
    var pass := PassUpTo(ps, JudgeOf(excluded, resources), |ps|);
    var numbered := NumberedGroups(ps, CatalogOf(doc.numbering), x.groups, excluded, |x.groups|);
    x.issues + ResourceIssues(ps, x.resourceGroups, excluded) + pass.issues
    + GroupsIssues(ps, x.groups, excluded, resources, |x.groups|)
    + OrderIssues(ps, DetectFrom(numbered, |numbered|), excluded, resources, |DetectFrom(numbered, |numbered|)|)
  }

  /** The list paragraphs `validate_lists` returns: resources, list paragraphs of the pass, group items. */
  function ListParagraphs(doc: Doc, excluded: set<nat>): set<nat> {
    var x := Extract(doc);
    var ps := doc.paragraphs;
    var resources := ResourceParagraphs(x.resourceGroups, excluded);
    resources + PassUpTo(ps, JudgeOf(excluded, resources), |ps|).lists + GroupParagraphs(x.groups, excluded, resources)
  }

  /** The code paragraphs the pass finds, in document order. */
  function ListCode(doc: Doc, excluded: set<nat>): seq<nat> {
    var x := Extract(doc);
    var resources := ResourceParagraphs(x.resourceGroups, excluded);
    PassUpTo(doc.paragraphs, JudgeOf(excluded, resources), |doc.paragraphs|).code
  }

  /** `validate_lists`. */
  method ValidateLists(doc: Doc, excluded: set<nat>) returns (issues: seq<Issue>, lists: set<nat>, code: seq<nat>)
    ensures issues == ListIssues(doc, excluded)
    ensures lists == ListParagraphs(doc, excluded)
    ensures code == ListCode(doc, excluded)
  {
    var ps := doc.paragraphs;
    var groups, resourceGroups, format := ExtractListItems(doc);
    var res := ValidateResourceList(ps, resourceGroups, excluded);
    var resources := ResourceParagraphs(resourceGroups, excluded);
    var passIssues, passLists, passCode := ScanParagraphs(ps, JudgeOf(excluded, resources));
    var groupIssues := CheckGroups(ps, groups, excluded, resources);
    var catalog := GetNumberingFormats(doc.numbering);
    var numbered := CollectNumbered(ps, catalog, groups, excluded);
    var errors := DetectBadOrderTree(numbered);
    var order := ReportOrder(ps, errors, excluded, resources);
    issues := format + res + passIssues + groupIssues + order;
    lists := resources + passLists + GroupParagraphs(groups, excluded, resources);
    code := passCode;
  }
}
