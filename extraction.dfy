/**
 * `extract_list_items`: one pass over the paragraphs that cuts the document's lists into
 * groups. Word-numbered paragraphs and paragraphs that type a marker by hand ("1.", "а)")
 * are items; a paragraph of ordinary text ends the group being read. Items that follow
 * the title of the list of information resources form resource groups instead.
 */
module Extraction {
  import opened Wrappers
  import opened Text
  import opened Document
  import opened Patterns
  import opened Messages
  import opened Errors
  import opened Numbering

  /** A list item: the prefix shown for it, its text without the prefix, and its paragraph's position. */
  datatype Item = Item(prefix: string, text: string, index: nat)

  type Group = seq<Item>

  /** The state of the pass after some paragraphs. */
  datatype Extracted = Extracted(
    groups: seq<Group>,
    resourceGroups: seq<Group>,
    current: Group,
    counters: Counters,
    issues: seq<Issue>,
    inResources: bool)

  const Start: Extracted := Extracted([], [], [], map[], [], false)

  /** `chr(0xF02D)`: the only bullet Word's standard list style uses. */
  const StandardBullet: string := "\U{F02D}"

  /** The characters stripped from the front of a bulleted paragraph's text. */
  const BulletChars: set<char> := {'\U{F02D}', '‒'}

  /** A blank paragraph that only carries a page break is passed over. */
  predicate PageBreakOnly(p: Paragraph) {
    TextOf(p) == "" && p.pageBreak
  }

  /** Ending the current group: it goes to the resource groups or to the ordinary ones. */
  function Close(st: Extracted): (r: Extracted)
    ensures r.current == [] && r.counters == map[] && !r.inResources && r.issues == st.issues
  {
    if st.inResources then st.(resourceGroups := st.resourceGroups + [st.current], current := [],
                                counters := map[], inResources := false)
    else st.(groups := st.groups + [st.current], current := [], counters := map[], inResources := false)
  }

  /** The text of a Word-numbered item: what follows a typed marker, if anything does. */
  function NumberedItemText(full: string): string {
    match NumberedContent(full)
    case Some(g) => if g != "" then Strip(g) else full
    case None => full
  }

  /** What one paragraph means to the pass. */
  datatype Reading =
    | PassOver                                  // a page break, a blank line, a heading
    | ResourceTitle                             // the title of the list of resources
    | OrdinaryText                              // text that ends the open group
    | Typed(item: Item)                         // a marker typed by hand
    | Numbered(counters: Counters, issues: seq<Issue>, numberedItem: Option<Item>)  // a Word-numbered paragraph

  /** What the invariant needs to know of a reading of the paragraph at `i`. */
  predicate ReadingOk(ps: seq<Paragraph>, r: Reading, i: nat) {
    (r.ResourceTitle? ==> IsBibliography(ps, i))
    && (r.Typed? ==> r.item.index == i && ListParagraph(ps, i))
    && (r.Numbered? && r.numberedItem.Some? ==> r.numberedItem.value.index == i && ListParagraph(ps, i))
  }

  /** How the paragraph at `i` is read, given the level counters and the resource-section flag. */
  function Read(ps: seq<Paragraph>, catalog: Catalog, counters: Counters, inResources: bool, i: nat): (r: Reading)
    ensures ReadingOk(ps, r, i)
  {
    if i >= |ps| then PassOver else
    var p := ps[i];
    var full := TextOf(p);
    if PageBreakOnly(p) then PassOver
    else if full == Bibliography then ResourceTitle
    else if p.numbering.None? then
      if full == "" || HeadingMatch(full).Some? then PassOver
      else match ManualListMatch(full)
        case Some(m) => Typed(Item(m.prefix, m.text, i))
        case None => OrdinaryText
    else
      var nid := p.numbering.value.numId;
      var lvl := p.numbering.value.level;
      var counters' := Advance(counters, nid, lvl);
      var info := LevelOf(catalog, nid, lvl);
      var fmt := if info.Some? then Some(info.value.fmt) else None;
      var tpl := if info.Some? then info.value.lvlText else "%1";
      if fmt == Some("bullet") then
        var bullet := if tpl != "" then tpl else StandardBullet;
        var issues := if bullet != StandardBullet then [ParagraphIssue(p.text, i, BadBullet)] else [];
        if inResources then Numbered(counters', issues + [ParagraphIssue(p.text, i, ResourceBullet)], None)
        else Numbered(counters', issues, Some(Item(bullet, Strip(StripLeftChars(full, BulletChars)), i)))
      else
        var prefix := RenderPrefix(tpl, catalog, counters', nid);
        var issues := match PrefixMessage(prefix, fmt)
          case Some(m) => [ParagraphIssue(p.text, IndexByContent(ps, i), m)]
          case None => [];
        Numbered(counters', issues, Some(Item(prefix, NumberedItemText(full), i)))
  }

  /** What the pass does with a paragraph read as `r` at position `i`. */
  function Apply(st: Extracted, r: Reading, text: string, i: nat): Extracted {
    match r
    case PassOver => st
    case ResourceTitle =>
      if st.current != [] then st.(groups := st.groups + [st.current], current := [], counters := map[],
                                   inResources := true)
      else st.(inResources := true)
    case OrdinaryText => if st.current != [] then Close(st) else st
    case Typed(it) =>
      st.(issues := st.issues + [ParagraphIssue(text, i, TextualList)], current := st.current + [it])
    case Numbered(c, issues, it) =>
      st.(counters := c, issues := st.issues + issues,
          current := if it.Some? then st.current + [it.value] else st.current)
  }

  /** A way of reading paragraphs: from the counters, the section flag and the position. */
  type Reader = (Counters, bool, nat) -> Reading

  /** Reading the paragraphs of `ps` against the numbering catalog. */
  function ReaderOf(ps: seq<Paragraph>, catalog: Catalog): Reader {
    (c, b, i) => Read(ps, catalog, c, b, i)
  }

  /**
   * The state after the first `n` paragraphs. The pass is stated over any reader, so that
   * what it keeps is proved once, whatever the reading of single paragraphs looks like.
   */
  function Scan(ps: seq<Paragraph>, read: Reader, n: nat): Extracted
    requires n <= |ps|
  {
    if n == 0 then Start
    else
      var st := Scan(ps, read, n - 1);
      Apply(st, read(st.counters, st.inResources, n - 1), ps[n - 1].text, n - 1)
  }

  /** The group still open at the end is kept too. */
  function Finish(st: Extracted): Extracted {
    if st.current != [] then Close(st) else st
  }

  /** The result of the pass over a whole document. */
  function Extract(doc: Doc): Extracted {
    Finish(Scan(doc.paragraphs, ReaderOf(doc.paragraphs, CatalogOf(doc.numbering)), |doc.paragraphs|))
  }

  /**
   * `extract_list_items`: reads the paragraphs once, with the open group, the level
   * counters and the resource-section flag as the loop's state.
   */
  method ExtractListItems(doc: Doc) returns (groups: seq<Group>, resourceGroups: seq<Group>, issues: seq<Issue>)
    ensures groups == Extract(doc).groups
    ensures resourceGroups == Extract(doc).resourceGroups
    ensures issues == Extract(doc).issues
  {
    var catalog := GetNumberingFormats(doc.numbering);
    groups, resourceGroups, issues := Collect(doc.paragraphs, ReaderOf(doc.paragraphs, catalog));
  }

  /** The loop of `extract_list_items` for a given way of reading each paragraph. */
  method Collect(ps: seq<Paragraph>, read: Reader) returns (groups: seq<Group>, resourceGroups: seq<Group>, issues: seq<Issue>)
    ensures groups == Finish(Scan(ps, read, |ps|)).groups
    ensures resourceGroups == Finish(Scan(ps, read, |ps|)).resourceGroups
    ensures issues == Finish(Scan(ps, read, |ps|)).issues
  {
    groups, resourceGroups, issues := [], [], [];
    var current: Group := [];
    var counters: Counters := map[];
    var inResources := false;
    for i := 0 to |ps|
      invariant Extracted(groups, resourceGroups, current, counters, issues, inResources) == Scan(ps, read, i)
    {
      var r := read(counters, inResources, i);
      match r {
        case PassOver =>
        case ResourceTitle =>
          inResources := true;
          if current != [] {
            groups := groups + [current];
            current := [];
            counters := map[];
          }
        case OrdinaryText =>
          if current != [] {
            if inResources {
              resourceGroups := resourceGroups + [current];
            } else {
              groups := groups + [current];
            }
            current := [];
            counters := map[];
            inResources := false;
          }
        case Typed(it) =>
          issues := issues + [ParagraphIssue(ps[i].text, i, TextualList)];
          current := current + [it];
        case Numbered(c, found, it) =>
          counters := c;
          issues := issues + found;
          if it.Some? {
            current := current + [it.value];
          }
      }
    }
    if current != [] {
      if inResources {
        resourceGroups := resourceGroups + [current];
      } else {
        groups := groups + [current];
      }
    }
  }

  // ---------------------------------------------------------------------------------
  // What every group the pass produces looks like.

  /** A paragraph that can be a list item: Word-numbered, or typed with a marker. */
  predicate ListParagraph(ps: seq<Paragraph>, i: nat) {
    i < |ps| && (ps[i].numbering.Some? || ManualListMatch(TextOf(ps[i])).Some?)
  }

  /** Items of list paragraphs before position `n`, in document order. */
  predicate Ordered(ps: seq<Paragraph>, g: Group, n: nat) {
    (forall k :: 0 <= k < |g| ==> g[k].index < n && ListParagraph(ps, g[k].index))
    && (forall k :: 0 < k < |g| ==> g[k - 1].index < g[k].index)
  }

  /** A finished group is non-empty and ordered. */
  predicate GroupOk(ps: seq<Paragraph>, g: Group, n: nat) {
    |g| > 0 && Ordered(ps, g, n)
  }

  predicate IsBibliography(ps: seq<Paragraph>, j: nat) {
    j < |ps| && TextOf(ps[j]) == Bibliography
  }

  /** The title of the list of resources comes before every item of `g`. */
  predicate AfterTitle(ps: seq<Paragraph>, g: Group) {
    exists j: nat :: j < |ps| && IsBibliography(ps, j) && forall k :: 0 <= k < |g| ==> j < g[k].index
  }

  /** What holds of the state after the first `n` paragraphs. */
  predicate Inv(ps: seq<Paragraph>, st: Extracted, n: nat) {
    n <= |ps|
    && (forall g :: g in st.groups ==> GroupOk(ps, g, n))
    && (forall g :: g in st.resourceGroups ==> GroupOk(ps, g, n) && AfterTitle(ps, g))
    && Ordered(ps, st.current, n)
    && (st.inResources ==> TitleBefore(ps, st.current, n))
  }

  /** The title of the list of resources is among the first `n` paragraphs and precedes `g`. */
  predicate TitleBefore(ps: seq<Paragraph>, g: Group, n: nat) {
    exists j: nat :: j < n && IsBibliography(ps, j) && forall k :: 0 <= k < |g| ==> j < g[k].index
  }

  lemma InvStart(ps: seq<Paragraph>)
    ensures Inv(ps, Start, 0)
  {
  }

  /** Adding the item of paragraph `n` keeps the open group ordered. */
  lemma AppendOrdered(ps: seq<Paragraph>, g: Group, n: nat, it: Item)
    requires Ordered(ps, g, n) && it.index == n && ListParagraph(ps, n)
    ensures Ordered(ps, g + [it], n + 1)
  {
    var h := g + [it];
    forall k | 0 < k < |h| ensures h[k - 1].index < h[k].index {
      if k < |g| {
        assert h[k - 1] == g[k - 1] && h[k] == g[k];
      }
    }
  }

  lemma OrderedLater(ps: seq<Paragraph>, g: Group, n: nat, m: nat)
    requires Ordered(ps, g, n) && n <= m
    ensures Ordered(ps, g, m)
  {
  }

  lemma InvLater(ps: seq<Paragraph>, st: Extracted, n: nat)
    requires Inv(ps, st, n) && n < |ps|
    ensures Inv(ps, st, n + 1)
  {
    forall g | g in st.groups ensures GroupOk(ps, g, n + 1) {
      OrderedLater(ps, g, n, n + 1);
    }
    forall g | g in st.resourceGroups ensures GroupOk(ps, g, n + 1) {
      OrderedLater(ps, g, n, n + 1);
    }
    OrderedLater(ps, st.current, n, n + 1);
  }

  lemma InvClose(ps: seq<Paragraph>, st: Extracted, n: nat)
    requires Inv(ps, st, n) && st.current != []
    ensures Inv(ps, Close(st), n)
  {
    if st.inResources {
      var j: nat :| j < n && IsBibliography(ps, j) && forall k :: 0 <= k < |st.current| ==> j < st.current[k].index;
      assert AfterTitle(ps, st.current);
    }
  }

  /** The item added to the open group at paragraph `n`. */
  lemma InvAppend(ps: seq<Paragraph>, st: Extracted, n: nat, st': Extracted, it: Item)
    requires Inv(ps, st, n) && n < |ps|
    requires it.index == n && ListParagraph(ps, n)
    requires st' == st.(current := st.current + [it], counters := st'.counters, issues := st'.issues)
    ensures Inv(ps, st', n + 1)
  {
    InvLater(ps, st, n);
    AppendOrdered(ps, st.current, n, it);
    if st.inResources {
      var j: nat :| j < n && IsBibliography(ps, j) && forall k :: 0 <= k < |st.current| ==> j < st.current[k].index;
      var h := st.current + [it];
      forall k | 0 <= k < |h| ensures j < h[k].index {
        if k < |st.current| { assert h[k] == st.current[k]; }
      }
      assert TitleBefore(ps, h, n + 1);
    }
  }

  /** A reader whose readings all say what the invariant needs. */
  ghost predicate ReaderOk(ps: seq<Paragraph>, read: Reader) {
    forall c, b, i :: ReadingOk(ps, read(c, b, i), i)
  }

  lemma ReaderOfOk(ps: seq<Paragraph>, catalog: Catalog)
    ensures ReaderOk(ps, ReaderOf(ps, catalog))
  {
  }

  /** Every step of the pass keeps the invariant. */
  lemma InvStep(ps: seq<Paragraph>, st: Extracted, r: Reading, n: nat)
    requires Inv(ps, st, n) && n < |ps| && ReadingOk(ps, r, n)
    ensures Inv(ps, Apply(st, r, ps[n].text, n), n + 1)
  {
    var st' := Apply(st, r, ps[n].text, n);
    InvLater(ps, st, n);
    match r
    case PassOver =>
    case ResourceTitle =>
      assert TitleBefore(ps, st'.current, n + 1) by {
        assert st'.current == [];
      }
    case OrdinaryText =>
      if st.current != [] {
        InvClose(ps, st, n + 1);
      }
    case Typed(it) =>
      InvAppend(ps, st, n, st', it);
    case Numbered(c, found, it) =>
      if it.Some? {
        InvAppend(ps, st, n, st', it.value);
      }
  }

  lemma {:induction false} InvScan(ps: seq<Paragraph>, read: Reader, n: nat)
    requires n <= |ps| && ReaderOk(ps, read)
    ensures Inv(ps, Scan(ps, read, n), n)
  {
    if n > 0 {
      InvScan(ps, read, n - 1);
      InvScanStep(ps, read, n);
    }
  }

  lemma InvScanStep(ps: seq<Paragraph>, read: Reader, n: nat)
    requires 0 < n <= |ps| && ReaderOk(ps, read) && Inv(ps, Scan(ps, read, n - 1), n - 1)
    ensures Inv(ps, Scan(ps, read, n), n)
  {
    var st := Scan(ps, read, n - 1);
    InvStep(ps, st, read(st.counters, st.inResources, n - 1), n - 1);
  }

  /**
   * Every group the pass returns is non-empty, holds list paragraphs in document order,
   * and every resource group lies after the title of the list of resources.
   */
  lemma ExtractedGroupsWellFormed(doc: Doc)
    ensures forall g :: g in Extract(doc).groups ==> GroupOk(doc.paragraphs, g, |doc.paragraphs|)
    ensures forall g :: g in Extract(doc).resourceGroups
                        ==> GroupOk(doc.paragraphs, g, |doc.paragraphs|) && AfterTitle(doc.paragraphs, g)
  {
    var ps := doc.paragraphs;
    var read := ReaderOf(ps, CatalogOf(doc.numbering));
    var st := Scan(ps, read, |ps|);
    ReaderOfOk(ps, CatalogOf(doc.numbering));
    InvScan(ps, read, |ps|);
    if st.current != [] {
      InvClose(ps, st, |ps|);
    }
  }
}
