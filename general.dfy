/**
 * The body-text pass (`check_general_formatting`). Every paragraph with text that is not
 * set aside — excluded by an earlier pass, shaped like a numbered heading, starting with a
 * caption word or a structural title, or set in Courier New — is body text, and is checked
 * for double spaces, its runs' font, size and emphasis, its line spacing, its indents, the
 * spacing around it and its alignment.
 */
module General {
  import opened Wrappers
  import opened Text
  import opened Patterns
  import opened Document
  import opened Messages
  import opened Errors

  const AppendixHead: string := "Приложение "

  /** The prefixes of paragraphs the pass leaves to other passes: captions, structural titles, appendices. */
  predicate SetAsideText(t: string) {
    StartsWithAny(t, CaptionPrefixes) || StartsWithAny(t, Titles) || StartsWith(t, AppendixHead)
  }

  /**
   * The tests that make the loop pass over paragraph `i`, in the source's order: no text,
   * excluded by position, a numbered-heading shape, a set-aside prefix, or code.
   */
  predicate Skipped(p: Paragraph, i: nat, excluded: set<nat>) {
    var t := TextOf(p);
    t == "" || i in excluded || HeadingShape(t) || SetAsideText(t) || IsCode(p)
  }

  /** `run.font.size and run.font.size.pt != 14`. */
  predicate WrongSize(r: Run) {
    HasSize(r) && r.size.value != 28
  }

  predicate Bold(r: Run) {
    IsTrue(r.bold)
  }

  predicate Italic(r: Run) {
    IsTrue(r.italic)
  }

  /** `run.font.underline is not None`: an explicit "no underline" counts as well. */
  predicate Underlined(r: Run) {
    r.underline.Some?
  }

  /** Some visible run has the property. */
  predicate SomeRun(runs: seq<Run>, f: Run -> bool) {
    exists k :: 0 <= k < |runs| && Visible(runs[k]) && f(runs[k])
  }

  /** The five flags the run loop raises. */
  datatype RunFlags = RunFlags(font: bool, size: bool, bold: bool, italic: bool, underline: bool)

  /** Each flag is raised when some visible run has its fault. */
  function FlagsOf(runs: seq<Run>): RunFlags {
    RunFlags(SomeRun(runs, FontLacksTimes), SomeRun(runs, WrongSize), SomeRun(runs, Bold),
             SomeRun(runs, Italic), SomeRun(runs, Underlined))
  }

  /** The run messages: one per raised flag, whatever the number of runs at fault. */
  function FlagMessages(f: RunFlags): seq<Msg> {
    When(f.font, ParaFont) + When(f.size, ParaSize) + When(f.bold, ParaBold)
    + When(f.italic, ParaItalic) + When(f.underline, ParaUnderline)
  }

  /** The paragraph-format checks. */
  function FormatMessages(p: Paragraph): seq<Msg> {
    When(SpacingAway(p, 360), ParaLineSpacing)
    + When(IndentNot049in(p), ParaFirstIndent)
    + SideIndentMessages(p, ParagraphWho)
    + When(SpacingSet(p), ParaSpacing)
    + When(p.alignment != AlignJustify, ParaAlignment)
  }

  /** What a body paragraph is told, in the order of the checks; the double spaces are looked for in the raw text. */
  function BodyMessages(p: Paragraph): seq<Msg> {
    When(HasDoubleSpace(p.text), DoubleSpaces) + FlagMessages(FlagsOf(p.runs)) + FormatMessages(p)
  }

  /** What the loop tells paragraph `i`. */
  function ParagraphMessages(p: Paragraph, i: nat, excluded: set<nat>): seq<Msg> {
    if Skipped(p, i, excluded) then [] else BodyMessages(p)
  }

  /** The raw texts of the paragraphs. */
  function Texts(ps: seq<Paragraph>): (ts: seq<string>)
    ensures |ts| == |ps| && forall j :: 0 <= j < |ps| ==> ts[j] == ps[j].text
  {
    seq(|ps|, j requires 0 <= j < |ps| => ps[j].text)
  }

  /** What the loop tells each paragraph. */
  function Told(ps: seq<Paragraph>, excluded: set<nat>): (told: seq<seq<Msg>>)
    ensures |told| == |ps| && forall j :: 0 <= j < |ps| ==> told[j] == ParagraphMessages(ps[j], j, excluded)
  {
    seq(|ps|, j requires 0 <= j < |ps| => ParagraphMessages(ps[j], j, excluded))
  }

  /** The errors of the pass over the document, given the positions of the paragraphs other passes took. */
  function GeneralIssues(doc: Doc, excluded: set<nat>): seq<Issue> {
    PassIssues(Texts(doc.paragraphs), Told(doc.paragraphs, excluded), |doc.paragraphs|)
  }

  // ---------------------------------------------------------------------------------
  // The loops.

  /** `check_general_formatting`: whether anything was found, and the errors. */
  method CheckGeneralFormatting(doc: Doc, excluded: set<nat>) returns (found: bool, issues: seq<Issue>)
    ensures issues == GeneralIssues(doc, excluded)
    ensures found <==> issues != []
  {
    ToldIsTold(doc.paragraphs, excluded);
    issues := CollectIssues(doc.paragraphs, excluded, Told(doc.paragraphs, excluded));
    found := issues != [];
  }

  /** `told` holds what the loop tells each paragraph. */
  predicate IsTold(ps: seq<Paragraph>, excluded: set<nat>, told: seq<seq<Msg>>) {
    |told| == |ps|
    && forall j {:trigger ParagraphMessages(ps[j], j, excluded)} :: 0 <= j < |ps| ==> told[j] == ParagraphMessages(ps[j], j, excluded)
  }

  lemma ToldIsTold(ps: seq<Paragraph>, excluded: set<nat>)
    ensures IsTold(ps, excluded, Told(ps, excluded))
  {
  }

  /** The loop over the paragraphs, given what it tells each of them. */
  method CollectIssues(ps: seq<Paragraph>, excluded: set<nat>, ghost told: seq<seq<Msg>>) returns (issues: seq<Issue>)
    requires IsTold(ps, excluded, told)
    ensures issues == PassIssues(Texts(ps), told, |ps|)
  {
    issues := [];
    for i := 0 to |ps|
      invariant issues == PassIssues(Texts(ps), told, i)
    {
      var msgs := CheckParagraph(ps[i], i, excluded);
      PassIssuesExtend(Texts(ps), told, i + 1, issues, msgs);
      issues := issues + ParagraphIssues(ps[i].text, i, msgs);
    }
  }

  /** What the loop tells one paragraph. */
  method CheckParagraph(p: Paragraph, i: nat, excluded: set<nat>) returns (msgs: seq<Msg>)
    ensures msgs == ParagraphMessages(p, i, excluded)
  {
    var t := TextOf(p);
    if t == "" || i in excluded || HeadingShape(t) || SetAsideText(t) {
      return [];
    }
    var code := ScanCode(p.runs);
    if code {
      return [];
    }
    msgs := [];
    if HasDoubleSpace(p.text) {
      msgs := [DoubleSpaces];
    }
    var flags := ScanRuns(p.runs);
    msgs := msgs + FlagMessages(flags);
    var format := CheckFormat(p);
    msgs := msgs + format;
  }

  /** `any(run.font.name == "Courier New" for run in paragraph.runs if run.text and run.text.strip() and run.font.name)`. */
  method ScanCode(runs: seq<Run>) returns (code: bool)
    ensures code <==> exists k :: 0 <= k < |runs| && Visible(runs[k]) && runs[k].font == Some(CourierNew)
  {
    for k := 0 to |runs|
      invariant forall j :: 0 <= j < k ==> !(Visible(runs[j]) && runs[j].font == Some(CourierNew))
    {
      if Visible(runs[k]) && runs[k].font == Some(CourierNew) {
        return true;
      }
    }
    return false;
  }

  /** The run loop: each flag is raised by the first visible run at fault and stays raised. */
  method ScanRuns(runs: seq<Run>) returns (flags: RunFlags)
    ensures flags == FlagsOf(runs)
  {
    flags := RunFlags(false, false, false, false, false);
    for k := 0 to |runs|
      invariant flags == FlagsOf(runs[..k])
    {
      flags := Raise(flags, runs[k]);
      FlagsStep(runs, k);
    }
    assert runs[..|runs|] == runs;
  }

  /** The checks of one run, raising the flags it is at fault for. */
  method Raise(flags: RunFlags, r: Run) returns (flags': RunFlags)
    ensures flags' == RunFlags(
      flags.font || (Visible(r) && FontLacksTimes(r)),
      flags.size || (Visible(r) && WrongSize(r)),
      flags.bold || (Visible(r) && Bold(r)),
      flags.italic || (Visible(r) && Italic(r)),
      flags.underline || (Visible(r) && Underlined(r)))
  {
    flags' := flags;
    if Visible(r) {
      if FontLacksTimes(r) {
        flags' := flags'.(font := true);
      }
      if WrongSize(r) {
        flags' := flags'.(size := true);
      }
      if Bold(r) {
        flags' := flags'.(bold := true);
      }
      if Italic(r) {
        flags' := flags'.(italic := true);
      }
      if Underlined(r) {
        flags' := flags'.(underline := true);
      }
    }
  }

  /** One more run raises the flags it is at fault for, if it is visible. */
  lemma FlagsStep(runs: seq<Run>, k: nat)
    requires k < |runs|
    ensures var r := runs[k]; var f := FlagsOf(runs[..k]);
      FlagsOf(runs[..k + 1]) == RunFlags(
        f.font || (Visible(r) && FontLacksTimes(r)),
        f.size || (Visible(r) && WrongSize(r)),
        f.bold || (Visible(r) && Bold(r)),
        f.italic || (Visible(r) && Italic(r)),
        f.underline || (Visible(r) && Underlined(r)))
  {
    SomeRunStep(runs, k, FontLacksTimes);
    SomeRunStep(runs, k, WrongSize);
    SomeRunStep(runs, k, Bold);
    SomeRunStep(runs, k, Italic);
    SomeRunStep(runs, k, Underlined);
  }

  lemma SomeRunStep(runs: seq<Run>, k: nat, f: Run -> bool)
    requires k < |runs|
    ensures SomeRun(runs[..k + 1], f) <==> SomeRun(runs[..k], f) || (Visible(runs[k]) && f(runs[k]))
  {
    var a, b := runs[..k + 1], runs[..k];
    assert forall j :: 0 <= j < k ==> a[j] == b[j];
    assert a[k] == runs[k];
  }

  /** The paragraph-format checks of a body paragraph. */
  method CheckFormat(p: Paragraph) returns (msgs: seq<Msg>)
    ensures msgs == FormatMessages(p)
  {
    msgs := [];
    if SpacingAway(p, 360) {
      msgs := msgs + [ParaLineSpacing];
    }
    if IndentNot049in(p) {
      msgs := msgs + [ParaFirstIndent];
    }
    assert msgs == When(SpacingAway(p, 360), ParaLineSpacing) + When(IndentNot049in(p), ParaFirstIndent);
    msgs := msgs + SideIndentMessages(p, ParagraphWho);
    if SpacingSet(p) {
      msgs := msgs + [ParaSpacing];
    }
    if p.alignment != AlignJustify {
      msgs := msgs + [ParaAlignment];
    }
  }

  // ---------------------------------------------------------------------------------
  // What the pass promises.

  /** Every error is about a body paragraph, at its own position, with one of the messages of that paragraph's checks. */
  lemma GeneralIssuesSound(doc: Doc, excluded: set<nat>, k: nat)
    requires k < |GeneralIssues(doc, excluded)|
    ensures var e := GeneralIssues(doc, excluded)[k]; var ps := doc.paragraphs;
      e.index.Some? && 0 <= e.index.value < |ps|
      && !Skipped(ps[e.index.value], e.index.value, excluded)
      && e.msg in BodyMessages(ps[e.index.value])
      && e == ParagraphIssue(ps[e.index.value].text, e.index.value, e.msg)
  {
    var ps := doc.paragraphs;
    PassIssuesSound(Texts(ps), Told(ps, excluded), |ps|, k);
    var j := GeneralIssues(doc, excluded)[k].index.value;
    assert Told(ps, excluded)[j] == ParagraphMessages(ps[j], j, excluded);
  }

  /** Every message of the checks of a body paragraph is among the errors, about that paragraph. */
  lemma GeneralIssuesComplete(doc: Doc, excluded: set<nat>, j: nat, m: Msg)
    requires j < |doc.paragraphs| && !Skipped(doc.paragraphs[j], j, excluded) && m in BodyMessages(doc.paragraphs[j])
    ensures ParagraphIssue(doc.paragraphs[j].text, j, m) in GeneralIssues(doc, excluded)
  {
    var ps := doc.paragraphs;
    assert Told(ps, excluded)[j] == ParagraphMessages(ps[j], j, excluded);
    PassIssuesComplete(Texts(ps), Told(ps, excluded), |ps|, j, m);
  }

  /** The pass finds nothing exactly when every body paragraph passes all its checks. */
  lemma NothingFound(doc: Doc, excluded: set<nat>)
    ensures GeneralIssues(doc, excluded) == []
      <==> forall j :: 0 <= j < |doc.paragraphs| && !Skipped(doc.paragraphs[j], j, excluded) ==> BodyMessages(doc.paragraphs[j]) == []
  {
    var ps := doc.paragraphs;
    if GeneralIssues(doc, excluded) != [] {
      GeneralIssuesSound(doc, excluded, 0);
    }
    forall j | 0 <= j < |ps| && !Skipped(ps[j], j, excluded) && BodyMessages(ps[j]) != []
      ensures GeneralIssues(doc, excluded) != []
    {
      GeneralIssuesComplete(doc, excluded, j, BodyMessages(ps[j])[0]);
    }
  }

  /** A paragraph excluded by an earlier pass, or with no text, is told nothing. */
  lemma SkippedTold(p: Paragraph, i: nat, excluded: set<nat>)
    requires i in excluded || TextOf(p) == ""
    ensures ParagraphMessages(p, i, excluded) == []
  {
  }

  /**
   * As written, `paragraph in excluded_paragraphs` compares paragraph objects taken from
   * different `doc.paragraphs` lists, which are never equal, so the pass runs as with nothing
   * excluded: a claimed paragraph that is not set aside by its text is judged as body text
   * and reported, where the pass by position tells it nothing.
   */
  lemma ClaimedJudgedAsWritten(doc: Doc, excluded: set<nat>, j: nat, m: Msg)
    requires j < |doc.paragraphs| && j in excluded
    requires !Skipped(doc.paragraphs[j], j, {}) && m in BodyMessages(doc.paragraphs[j])
    ensures ParagraphIssue(doc.paragraphs[j].text, j, m) in GeneralIssues(doc, {})
    ensures ParagraphIssue(doc.paragraphs[j].text, j, m) !in GeneralIssues(doc, excluded)
  {
    GeneralIssuesComplete(doc, {}, j, m);
    var e := ParagraphIssue(doc.paragraphs[j].text, j, m);
    if e in GeneralIssues(doc, excluded) {
      var k :| 0 <= k < |GeneralIssues(doc, excluded)| && GeneralIssues(doc, excluded)[k] == e;
      GeneralIssuesSound(doc, excluded, k);
      assert false;
    }
  }

  /** A run the body-text checks accept: Times New Roman (or inherited), 14 pt (or inherited), no emphasis, no underline set. */
  predicate RunConforms(r: Run) {
    (!HasFont(r) || Contains(r.font.value, TimesNewRoman)) && (!HasSize(r) || r.size.value == 28)
    && !IsTrue(r.bold) && !IsTrue(r.italic) && r.underline.None?
  }

  /**
   * A body paragraph as the checks want it: single spaces, conforming visible runs, line
   * spacing 1.5 (within 0.01), a first-line indent of 0.49 in (less than 0.01 in off), no side
   * indents, no spacing before or after, justified.
   */
  predicate Conforming(p: Paragraph) {
    !HasDoubleSpace(p.text)
    && (forall k :: 0 <= k < |p.runs| && Visible(p.runs[k]) ==> RunConforms(p.runs[k]))
    && p.lineSpacing.Some? && Abs(p.lineSpacing.value - 360) < 3
    && p.firstIndent.Some? && Abs(635 * p.firstIndent.value - 448056) < 9144
    && !SideIndentSet(p.leftIndent) && !SideIndentSet(p.rightIndent)
    && !SpacingSet(p) && p.alignment == AlignJustify
  }

  lemma FlagsClear(runs: seq<Run>)
    ensures FlagMessages(FlagsOf(runs)) == [] <==> forall k :: 0 <= k < |runs| && Visible(runs[k]) ==> RunConforms(runs[k])
  {
    if forall k :: 0 <= k < |runs| && Visible(runs[k]) ==> RunConforms(runs[k]) {
      assert !SomeRun(runs, FontLacksTimes) && !SomeRun(runs, WrongSize) && !SomeRun(runs, Bold);
      assert !SomeRun(runs, Italic) && !SomeRun(runs, Underlined);
    }
  }

  lemma FormatClear(p: Paragraph)
    ensures FormatMessages(p) == [] <==>
      p.lineSpacing.Some? && Abs(p.lineSpacing.value - 360) < 3
      && p.firstIndent.Some? && Abs(635 * p.firstIndent.value - 448056) < 9144
      && !SideIndentSet(p.leftIndent) && !SideIndentSet(p.rightIndent)
      && !SpacingSet(p) && p.alignment == AlignJustify
  {
  }

  /** A body paragraph is told nothing exactly when it conforms. */
  lemma ConformingIff(p: Paragraph)
    ensures BodyMessages(p) == [] <==> Conforming(p)
  {
    FlagsClear(p.runs);
    FormatClear(p);
  }

  /**
   * A visible run that explicitly switches underlining off still counts as underlined,
   * since the check only asks whether the run sets the property at all.
   */
  lemma ExplicitNoUnderline(p: Paragraph, k: nat)
    requires k < |p.runs| && Visible(p.runs[k]) && p.runs[k].underline == Some(false)
    ensures ParaUnderline in BodyMessages(p)
  {
    assert SomeRun(p.runs, Underlined);
  }
}
