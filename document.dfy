/**
 * The part of a Word document the validators read: paragraphs with their runs and
 * paragraph format, tables with their neighbouring paragraphs, and the numbering
 * definitions. Lengths are the integers OOXML stores: font sizes in half-points,
 * indents and paragraph spacing in twentieths of a point (1 twip = 635 EMU), and
 * "auto" line spacing in 240ths of a line.
 */
module Document {
  import opened Wrappers
  import opened Text
  import opened Messages

  /** `paragraph.alignment`; `Inherited` is python-docx's `None`. */
  datatype Alignment = Inherited | AlignLeft | AlignCenter | AlignRight | AlignJustify | AlignOther

  /**
   * A run of characters with its directly applied font properties (`None` when the run
   * inherits the property). An underline of any style is `Some(true)`.
   */
  datatype Run = Run(
    text: string,
    font: Option<string>,
    size: Option<nat>,
    bold: Option<bool>,
    italic: Option<bool>,
    underline: Option<bool>)

  /** `w:numPr`: the numbering instance and the level (`w:ilvl`; 0 when its `w:val` is absent; a missing `w:ilvl` raises in the program and is not modelled). */
  datatype NumRef = NumRef(numId: string, level: int)

  /**
   * A paragraph. `lineSpacing` is `Some(line)` for the multiple-of-a-line rule and `None`
   * when it is unset or an absolute height; `pageBreak` says a page break run or
   * "page break before" is present; `hasPicture` says the paragraph holds a drawing.
   */
  datatype Paragraph = Paragraph(
    text: string,
    style: string,
    runs: seq<Run>,
    alignment: Alignment,
    lineSpacing: Option<int>,
    firstIndent: Option<int>,
    leftIndent: Option<int>,
    rightIndent: Option<int>,
    spaceBefore: Option<int>,
    spaceAfter: Option<int>,
    numbering: Option<NumRef>,
    pageBreak: bool,
    hasPicture: bool)

  /**
   * A body table: whether it is centred, the position of the nearest paragraph before it
   * in the body (other elements in between are passed over), and the position of the
   * paragraph right after it, when the next body element is a paragraph.
   */
  datatype Table = Table(centered: bool, before: Option<nat>, after: Option<nat>)

  /** `w:lvl` of an abstract numbering definition. */
  datatype LevelDef = LevelDef(ilvl: int, fmt: string, lvlText: string)

  /** `w:abstractNum`. */
  datatype AbstractNum = AbstractNum(id: string, levels: seq<LevelDef>)

  /** `w:num`: a numbering instance bound to an abstract definition. */
  datatype NumDef = NumDef(numId: string, abstractId: string)

  /** The numbering part, when the document has one. */
  datatype NumberingPart = NumberingPart(abstracts: seq<AbstractNum>, nums: seq<NumDef>)

  datatype Doc = Doc(paragraphs: seq<Paragraph>, tables: seq<Table>, numbering: Option<NumberingPart>)

  const TimesNewRoman: string := "Times New Roman"
  const CourierNew: string := "Courier New"

  function Abs(x: int): nat {
    if x < 0 then -x else x
  }

  /** `paragraph.text.strip()`. */
  function TextOf(p: Paragraph): string {
    Strip(p.text)
  }

  /** `run.text.strip()` is non-empty: the only runs whose format the validators look at. */
  predicate Visible(r: Run) {
    !Blank(r.text)
  }

  predicate IsTrue(b: Option<bool>) {
    b == Some(true)
  }

  /** `run.font.size` is truthy (a zero size is falsy in python-docx). */
  predicate HasSize(r: Run) {
    r.size.Some? && r.size.value != 0
  }

  /** `run.font.name` is truthy. */
  predicate HasFont(r: Run) {
    r.font.Some? && r.font.value != ""
  }

  /** `run.font.name and "Times New Roman" not in run.font.name`. */
  predicate FontLacksTimes(r: Run) {
    HasFont(r) && !Contains(r.font.value, TimesNewRoman)
  }

  /** Code: some visible run is set in Courier New. */
  predicate IsCode(p: Paragraph) {
    exists k :: 0 <= k < |p.runs| && Visible(p.runs[k]) && p.runs[k].font == Some(CourierNew)
  }

  /** Some visible run is bold. */
  predicate HasBold(p: Paragraph) {
    exists k :: 0 <= k < |p.runs| && Visible(p.runs[k]) && IsTrue(p.runs[k].bold)
  }

  /** `first_line_indent and first_line_indent.pt != 0`. */
  predicate FirstIndentSet(p: Paragraph) {
    p.firstIndent.Some? && p.firstIndent.value != 0
  }

  /**
   * `first_line_indent is None or abs(first_line_indent.inches - Inches(1.25 * 0.393701).inches) > 0.01`:
   * the expected indent is 450000 EMU and the tolerance 9144 EMU.
   */
  predicate IndentNot125cm(p: Paragraph) {
    p.firstIndent.None? || Abs(635 * p.firstIndent.value - 450000) > 9144
  }

  /**
   * `not indent or abs(indent.inches - 0.49) > 0.01` (0.49 in = 448056 EMU). In floating
   * point `0.5 - 0.49` exceeds `0.01`, so an indent of exactly 0.5 in (720 twips, 457200 EMU),
   * whose exact distance equals the tolerance, is told; it is the only whole number of twips
   * on the boundary, and every other one is at least 635 EMU away from it.
   */
  predicate IndentNot049in(p: Paragraph) {
    p.firstIndent.None? || Abs(635 * p.firstIndent.value - 448056) >= 9144
  }

  /** Word's usual half-inch indent is told; the 1.25 cm of the message (709 twips) is not. */
  lemma HalfInchIndentTold(p: Paragraph, q: Paragraph)
    requires p.firstIndent == Some(720) && q.firstIndent == Some(709)
    ensures IndentNot049in(p) && !IndentNot049in(q)
  {
  }

  /** `indent and abs(indent.inches) > 0.01`. */
  predicate SideIndentSet(v: Option<int>) {
    v.Some? && Abs(635 * v.value) > 9144
  }

  /** `(space_before and abs(space_before.pt) > 0.01) or (space_after and ...)`. */
  predicate SpacingSet(p: Paragraph) {
    (p.spaceBefore.Some? && p.spaceBefore.value != 0) || (p.spaceAfter.Some? && p.spaceAfter.value != 0)
  }

  /** `line_spacing != 1.5`; an absolute height never equals a multiple. */
  predicate SpacingNot15(p: Paragraph) {
    p.lineSpacing != Some(360)
  }

  /** `line_spacing is None or abs(line_spacing - target / 240) > 0.01`. */
  predicate SpacingAway(p: Paragraph, target: int) {
    p.lineSpacing.None? || Abs(p.lineSpacing.value - target) >= 3
  }

  /** The message for a left and/or right indent, as in "В абзаце отступ слева и справа не допускается.". */
  function SideIndentMessages(p: Paragraph, who: Who): (msgs: seq<Msg>)
    ensures |msgs| <= 1
    ensures msgs == [] <==> !SideIndentSet(p.leftIndent) && !SideIndentSet(p.rightIndent)
    ensures msgs != [] ==> msgs[0] == SideIndent(who, SideIndentSet(p.leftIndent), SideIndentSet(p.rightIndent))
  {
    if SideIndentSet(p.leftIndent) || SideIndentSet(p.rightIndent)
    then [SideIndent(who, SideIndentSet(p.leftIndent), SideIndentSet(p.rightIndent))]
    else []
  }

  /** The messages `check` gives for each visible run, in run order. */
  function RunMessages(runs: seq<Run>, check: Run -> seq<Msg>): (msgs: seq<Msg>)
    ensures (forall k :: 0 <= k < |runs| && Visible(runs[k]) ==> check(runs[k]) == []) ==> msgs == []
  {
    if runs == [] then []
    else (if Visible(runs[0]) then check(runs[0]) else []) + RunMessages(runs[1..], check)
  }

  /** The messages of the runs from `k` on: those of run `k`, when visible, then the rest. */
  lemma RunMessagesFrom(runs: seq<Run>, check: Run -> seq<Msg>, k: nat)
    requires k < |runs|
    ensures RunMessages(runs[k..], check) == (if Visible(runs[k]) then check(runs[k]) else []) + RunMessages(runs[k + 1..], check)
  {
    assert runs[k..][1..] == runs[k + 1..];
  }

  /** A message is among the run messages exactly when some visible run gives it. */
  lemma {:induction false} RunMessagesHas(runs: seq<Run>, check: Run -> seq<Msg>, m: Msg)
    ensures m in RunMessages(runs, check) <==> exists k :: 0 <= k < |runs| && Visible(runs[k]) && m in check(runs[k])
    decreases |runs|
  {
    if runs != [] {
      RunMessagesHas(runs[1..], check, m);
      assert forall k :: 0 < k < |runs| ==> runs[k] == runs[1..][k - 1];
      if m in RunMessages(runs[1..], check) {
        var k :| 0 <= k < |runs| - 1 && Visible(runs[1..][k]) && m in check(runs[1..][k]);
        assert runs[k + 1] == runs[1..][k];
      }
    }
  }

  /** `message if cond else nothing`. */
  function When(cond: bool, m: Msg): (msgs: seq<Msg>)
    ensures msgs == (if cond then [m] else [])
  {
    if cond then [m] else []
  }

  /** The blank paragraph at `k`, counting from the end when `k` is negative as Python does. */
  predicate BlankAt(ps: seq<Paragraph>, k: int) {
    var j := if k < 0 then k + |ps| else k;
    0 <= j < |ps| && TextOf(ps[j]) == ""
  }

  /** Same stripped text and same style name. */
  predicate SameContent(a: Paragraph, b: Paragraph) {
    TextOf(a) == TextOf(b) && a.style == b.style
  }

  /**
   * `get_paragraph_index_by_content`: the first paragraph that is this one or has the same
   * stripped text and the same style.
   */
  function IndexByContent(ps: seq<Paragraph>, i: nat): (r: nat)
    requires i < |ps|
    ensures r <= i
    ensures SameContent(ps[r], ps[i])
    ensures forall j :: 0 <= j < r ==> !SameContent(ps[j], ps[i])
  {
    FirstSameContent(ps, i, 0)
  }

  function FirstSameContent(ps: seq<Paragraph>, i: nat, j: nat): (r: nat)
    requires j <= i < |ps|
    requires forall k :: 0 <= k < j ==> !SameContent(ps[k], ps[i])
    ensures j <= r <= i
    ensures SameContent(ps[r], ps[i])
    ensures forall k :: 0 <= k < r ==> !SameContent(ps[k], ps[i])
    decreases i - j
  {
    if j == i || SameContent(ps[j], ps[i]) then j
    else FirstSameContent(ps, i, j + 1)
  }

  /** The structural titles every document needs, in the order they are reported when missing. */
  const Introduction: string := "Введение"
  const Conclusion: string := "Заключение"
  const Bibliography: string := "Перечень использованных информационных ресурсов"
  const Titles: seq<string> := [Introduction, Conclusion, Bibliography]

  /** The caption prefixes every text pass sets aside. */
  const CaptionPrefixes: seq<string> :=
    ["Таблица ", "Рисунок ", "Листинг ", "Продолжение таблицы ", "Окончание таблицы "]

  predicate StartsWithAny(s: string, prefixes: seq<string>) {
    exists k :: 0 <= k < |prefixes| && StartsWith(s, prefixes[k])
  }

  /** A caption, a structural title or an appendix title: never a heading or a list. */
  predicate CaptionOrTitle(t: string) {
    StartsWithAny(t, CaptionPrefixes) || t in Titles || StartsWith(t, "Приложение ")
  }
}
