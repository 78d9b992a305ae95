/**
 * The figure pass (`check_image_formatting`). One loop over the paragraphs keeps the
 * current appendix and chapter, a counter per appendix letter, a counter of Y.X captions
 * in the current chapter, the main-body counter and the format of the last main-body
 * caption. A paragraph starting with `Рисунок` is a caption: its layout, its number and,
 * when it has the caption shape, its style and the line after it are checked. Any other
 * paragraph holding a picture is checked for its layout, a blank line above it and a
 * caption below it.
 */
module Images {
  import opened Wrappers
  import opened Text
  import opened Patterns
  import opened Document
  import opened Messages
  import opened Errors
  import opened Captions

  const FigureWord: string := "Рисунок"
  const FigureWordLower: string := "рисунок"

  // ---------------------------------------------------------------------------------
  // Sorting one stripped text.

  /**
   * What a paragraph is to the pass. A caption carries the match of both caption patterns,
   * since which one applies depends on whether an appendix has begun; `punct` says the
   * text ends in punctuation.
   */
  datatype Shape =
    | AppendixTitle(letter: Option<string>)
    | FigureCaption(main: Option<MainNumber>, appendix: Option<AppendixNumber>, punct: bool)
    | Picture
    | Plain

  /**
   * A paragraph: the chapter it opens when its text reads `N text`, and its shape. A chapter
   * heading is not skipped by the rest of the loop, so it may also hold a picture.
   */
  datatype Line = Line(chapter: Option<nat>, shape: Shape)

  /**
   * `text.startswith("Рисунок") or text.startswith("рисунок") and paragraph not in skip_paragraphs`:
   * `and` binds tighter than `or`, so the set of paragraphs to skip spares a capitalised caption.
   */
  predicate StartsCaption(t: string, skipped: bool) {
    StartsWith(t, FigureWord) || (StartsWith(t, FigureWordLower) && !skipped)
  }

  /** The tests of the loop body in the source's order. */
  function ClassifyLine(t: string, skipped: bool, picture: bool): (l: Line)
    ensures Shaped(l)
  {
    var chapter := ChapterHeadingMatch(t);
    assert chapter.Some? ==> IsDigit(t[0]);
    Line(chapter,
         if StartsWith(t, "Приложение") then AppendixTitle(ValidLetter(t))
         else if StartsCaption(t, skipped) then
           FigureCaption(MainNumberOf(t, FigureWord), AppendixNumberOf(t, FigureWord), EndsWithPunct(t))
         else if picture then Picture
         else Plain)
  }

  /** A main-body caption number has one or two parts, and a chapter heading is no title and no caption. */
  predicate Shaped(l: Line) {
    && (l.shape.FigureCaption? && l.shape.main.Some? ==> 1 <= |l.shape.main.value.parts| <= 2)
    && (l.chapter.Some? ==> l.shape.Picture? || l.shape.Plain?)
  }

  /** The lines of a document, paragraph by paragraph; `skip` holds the positions of the paragraphs to skip. */
  function Lines(ps: seq<Paragraph>, skip: set<nat>): (ls: seq<Line>)
    ensures Classified(ps, skip, ls)
  {
    seq(|ps|, i requires 0 <= i < |ps| => ClassifyLine(TextOf(ps[i]), i in skip, ps[i].hasPicture))
  }

  /** `ls` holds the line of each paragraph. */
  predicate Classified(ps: seq<Paragraph>, skip: set<nat>, ls: seq<Line>) {
    |ls| == |ps| && forall k :: 0 <= k < |ps| ==> ls[k] == ClassifyLine(TextOf(ps[k]), k in skip, ps[k].hasPicture)
  }

  // ---------------------------------------------------------------------------------
  // What the loop has seen before paragraph `n`: each variable of the source as a
  // function of the lines.

  /** `current_appendix`: the letter of the last appendix title with an allowed letter. */
  function AppendixBefore(ls: seq<Line>, n: nat): Option<string>
    requires n <= |ls|
  {
    if n == 0 then None
    else if ls[n - 1].shape.AppendixTitle? && ls[n - 1].shape.letter.Some? then ls[n - 1].shape.letter
    else AppendixBefore(ls, n - 1)
  }

  /** `current_heading`: the number of the last chapter heading. */
  function HeadingBefore(ls: seq<Line>, n: nat): Option<nat>
    requires n <= |ls|
  {
    if n == 0 then None
    else if ls[n - 1].chapter.Some? then ls[n - 1].chapter
    else HeadingBefore(ls, n - 1)
  }

  /** The caption at `i` read in the main-body form, when no appendix has begun. */
  function MainAt(ls: seq<Line>, i: nat): Option<MainNumber>
    requires i < |ls|
  {
    if ls[i].shape.FigureCaption? && AppendixBefore(ls, i).None? then ls[i].shape.main else None
  }

  /** The caption at `i` read in the appendix form, inside appendix `l`. */
  predicate InAppendixCaption(ls: seq<Line>, i: nat, l: string)
    requires i < |ls|
  {
    ls[i].shape.FigureCaption? && AppendixBefore(ls, i) == Some(l)
    && ls[i].shape.appendix.Some? && ls[i].shape.appendix.value.ref.Some?
  }

  predicate IsSequential(ls: seq<Line>, i: nat)
    requires i < |ls|
  {
    MainAt(ls, i).Some? && |MainAt(ls, i).value.parts| == 1
  }

  predicate IsSectioned(ls: seq<Line>, i: nat)
    requires i < |ls|
  {
    MainAt(ls, i).Some? && |MainAt(ls, i).value.parts| == 2
  }

  /** `sequential_numbers['main']`: the main-body captions numbered X so far. */
  function MainCount(ls: seq<Line>, n: nat): nat
    requires n <= |ls|
  {
    if n == 0 then 0 else MainCount(ls, n - 1) + (if IsSequential(ls, n - 1) then 1 else 0)
  }

  /** `sequential_numbers[l]`: the captions of appendix `l` so far, wherever the appendix was resumed. */
  function AppendixCount(ls: seq<Line>, n: nat, l: string): nat
    requires n <= |ls|
  {
    if n == 0 then 0 else AppendixCount(ls, n - 1, l) + (if InAppendixCaption(ls, n - 1, l) then 1 else 0)
  }

  /**
   * `section_numbers[current_heading]`: the captions numbered Y.X since the last chapter
   * heading, which set the counter of its number back to 0.
   */
  function SectionCount(ls: seq<Line>, n: nat): nat
    requires n <= |ls|
  {
    if n == 0 then 0
    else if ls[n - 1].chapter.Some? then 0
    else SectionCount(ls, n - 1) + (if IsSectioned(ls, n - 1) && HeadingBefore(ls, n - 1).Some? then 1 else 0)
  }

  /** `last_caption_format`: the format of the last main-body caption. */
  function LastFormat(ls: seq<Line>, n: nat): Option<Format>
    requires n <= |ls|
  {
    if n == 0 then None
    else if MainAt(ls, n - 1).Some? then Some(FormatOf(MainAt(ls, n - 1).value))
    else LastFormat(ls, n - 1)
  }

  /** The caption at `i` has the shape of whichever caption pattern applies there. */
  predicate Matched(ls: seq<Line>, i: nat)
    requires i < |ls| && ls[i].shape.FigureCaption?
  {
    if AppendixBefore(ls, i).Some? then ls[i].shape.appendix.Some? else ls[i].shape.main.Some?
  }

  // ---------------------------------------------------------------------------------
  // What one paragraph is told.

  /** The checks every caption gets first. */
  function CaptionLayoutMessages(p: Paragraph): seq<Msg> {
    When(FirstIndentSet(p), ImageCaptionFirstIndent)
    + SideIndentMessages(p, ImageCaptionWho)
    + When(p.alignment != AlignCenter && p.alignment != Inherited, ImageCaptionAlignment)
  }

  /** The checks of a visible run of a caption. */
  function CaptionRunMessages(r: Run): seq<Msg> {
    When(FontLacksTimes(r), ImageCaptionFont)
    + When(HasSize(r) && r.size.value != 28, ImageCaptionSize)
    + When(IsTrue(r.bold), ImageCaptionBold)
    + When(IsTrue(r.italic), ImageCaptionItalic)
  }

  /** The paragraph after `i` exists and is blank. */
  predicate BlankNext(ps: seq<Paragraph>, i: nat) {
    i + 1 < |ps| && TextOf(ps[i + 1]) == ""
  }

  /**
   * The checks of a caption of the right shape after its number. The check that the name
   * starts with a capital never fires: both caption patterns demand one.
   */
  function CaptionStyleMessages(p: Paragraph, punct: bool, blankNext: bool): seq<Msg> {
    RunMessages(p.runs, CaptionRunMessages)
    + When(SpacingNot15(p), ImageCaptionLineSpacing)
    + When(punct, ImageCaptionPunct)
    + When(blankNext, ImageCaptionBlankAfter)
  }

  /** The number checks inside appendix `l`, whose counter stood at `count`. */
  function AppendixNumberMessages(l: string, a: AppendixNumber, count: nat): seq<Msg> {
    When(a.ref.None? || a.ref.value.letter != l, ImageAppendixPrefix(l))
    + (if a.ref.Some? then When(a.ref.value.value != count + 1, ImageAppendixSequence(l, count + 1, a.number)) else [])
  }

  /** Y.X: a zero X, and the number expected in the current chapter. */
  function SectionedMessages(m: MainNumber, heading: Option<nat>, section: nat): seq<Msg>
    requires |m.parts| == 2
  {
    When(m.parts[1] == 0, ImageZeroSecond(m.number))
    + (match heading
       case None => []
       case Some(h) =>
         When(m.number != SectionLabel(h, section + 1), ImageSectionSequence(h, SectionLabel(h, section + 1), m.number)))
  }

  /** The format of the previous main-body caption, when there was one, must be this one's. */
  function FormatMessages(m: MainNumber, last: Option<Format>): seq<Msg> {
    if last.Some? && last.value != FormatOf(m) then [ImageFormatChange(last.value == Sequential)] else []
  }

  /** The number checks in the main body. */
  function MainNumberMessages(m: MainNumber, heading: Option<nat>, section: nat, last: Option<Format>, main: nat): seq<Msg> {
    (if |m.parts| == 2 then SectionedMessages(m, heading, section) else [])
    + FormatMessages(m, last)
    + (if |m.parts| == 1 then When(m.parts[0] != main + 1, ImageMainSequence(main + 1, m.number)) else [])
  }

  /** What the caption at `i` is told about its shape and number, in the order of the checks. */
  function NumberMessages(ls: seq<Line>, i: nat): seq<Msg>
    requires i < |ls| && ls[i].shape.FigureCaption?
  {
    match AppendixBefore(ls, i)
    case Some(l) =>
      (match ls[i].shape.appendix
       case None => [ImageCaptionShape(true)]
       case Some(a) => AppendixNumberMessages(l, a, AppendixCount(ls, i, l)))
    case None =>
      (match ls[i].shape.main
       case None => [ImageCaptionShape(false)]
       case Some(m) => MainNumberMessages(m, HeadingBefore(ls, i), SectionCount(ls, i), LastFormat(ls, i), MainCount(ls, i)))
  }

  /** What a caption is told: its layout and its number, then, when it has the right shape, its style. */
  function CaptionMessages(ps: seq<Paragraph>, ls: seq<Line>, i: nat): seq<Msg>
    requires |ls| == |ps| && i < |ps| && ls[i].shape.FigureCaption?
  {
    CaptionLayoutMessages(ps[i]) + NumberMessages(ls, i)
    + (if Matched(ls, i) then CaptionStyleMessages(ps[i], ls[i].shape.punct, BlankNext(ps, i)) else [])
  }

  /** The paragraph after `i` is a caption of the right shape that is not to be skipped. */
  predicate CaptionBelow(ps: seq<Paragraph>, skip: set<nat>, i: nat, inAppendix: bool) {
    i + 1 < |ps| && CaptionMatch(TextOf(ps[i + 1]), FigureWord, inAppendix).Some? && i + 1 !in skip
  }

  /** The layout checks of a picture. */
  function PictureLayoutMessages(p: Paragraph): seq<Msg> {
    When(p.alignment != AlignCenter && p.alignment != Inherited, ImageNotCentered)
    + When(FirstIndentSet(p), ImageFirstIndent)
    + SideIndentMessages(p, ImageWho)
  }

  /** The checks of the paragraphs around a picture, made only when the picture is not the first paragraph. */
  function PictureNeighbourMessages(ps: seq<Paragraph>, skip: set<nat>, i: nat, inAppendix: bool): seq<Msg>
    requires i < |ps|
  {
    if i > 0 then
      When(TextOf(ps[i - 1]) == "", ImageBlankBefore) + When(!CaptionBelow(ps, skip, i, inAppendix), ImageNoCaption)
    else []
  }

  /** What a picture is told. */
  function PictureMessages(ps: seq<Paragraph>, skip: set<nat>, i: nat, inAppendix: bool): seq<Msg>
    requires i < |ps|
  {
    PictureLayoutMessages(ps[i]) + PictureNeighbourMessages(ps, skip, i, inAppendix)
  }

  /** What the loop tells paragraph `i`. */
  function LineMessages(ps: seq<Paragraph>, skip: set<nat>, ls: seq<Line>, i: nat): seq<Msg>
    requires |ls| == |ps| && i < |ps|
  {
    match ls[i].shape
    case FigureCaption(_, _, _) => CaptionMessages(ps, ls, i)
    case Picture => PictureMessages(ps, skip, i, AppendixBefore(ls, i).Some?)
    case _ => []
  }

  /** The errors the loop reports for paragraph `i`. */
  function LineIssues(ps: seq<Paragraph>, skip: set<nat>, ls: seq<Line>, i: nat): seq<Issue>
    requires |ls| == |ps| && i < |ps|
  {
    ParagraphIssues(ps[i].text, i, LineMessages(ps, skip, ls, i))
  }

  function LineIssuesUpTo(ps: seq<Paragraph>, skip: set<nat>, ls: seq<Line>, n: nat): seq<Issue>
    requires |ls| == |ps| && n <= |ps|
  {
    if n == 0 then [] else LineIssuesUpTo(ps, skip, ls, n - 1) + LineIssues(ps, skip, ls, n - 1)
  }

  /** `caption_paragraphs`: the captions, in order. */
  function CaptionPositions(ls: seq<Line>, n: nat): seq<nat>
    requires n <= |ls|
  {
    if n == 0 then [] else CaptionPositions(ls, n - 1) + (if ls[n - 1].shape.FigureCaption? then [n - 1] else [])
  }

  // ---------------------------------------------------------------------------------
  // The loop.

  /**
   * The loop's numbering variables: `current_appendix`, `current_heading`,
   * `section_numbers`, `sequential_numbers` (its main-body entry apart, as `main`) and
   * `last_caption_format`.
   */
  datatype Numbering = Numbering(
    appendix: Option<string>,
    heading: Option<nat>,
    sections: map<nat, nat>,
    letters: map<string, nat>,
    main: nat,
    lastFormat: Option<Format>)

  /** The numbering variables hold, after `n` paragraphs, what the lines say they should. */
  ghost predicate NumberingAgrees(ls: seq<Line>, n: nat, c: Numbering)
    requires n <= |ls|
  {
    && c.appendix == AppendixBefore(ls, n)
    && c.heading == HeadingBefore(ls, n)
    && (c.heading.Some? ==> c.heading.value in c.sections && c.sections[c.heading.value] == SectionCount(ls, n))
    && (c.appendix.Some? ==> c.appendix.value in c.letters)
    && (forall l :: l in c.letters ==> c.letters[l] == AppendixCount(ls, n, l))
    && (forall l :: l !in c.letters ==> AppendixCount(ls, n, l) == 0)
    && c.main == MainCount(ls, n)
    && c.lastFormat == LastFormat(ls, n)
  }

  const StartNumbering: Numbering := Numbering(None, None, map[], map[], 0, None)

  lemma StartAgrees(ls: seq<Line>)
    ensures NumberingAgrees(ls, 0, StartNumbering)
  {
  }

  /** A line that opens no chapter, is no appendix title and no caption of the right shape leaves the numbering as it was. */
  lemma NumberingUntouched(ls: seq<Line>, i: nat, c: Numbering)
    requires i < |ls| && NumberingAgrees(ls, i, c)
    requires ls[i].chapter.None? && !ls[i].shape.AppendixTitle?
    requires ls[i].shape.FigureCaption? ==> !Matched(ls, i)
    ensures NumberingAgrees(ls, i + 1, c)
  {
    assert forall l :: !InAppendixCaption(ls, i, l);
  }

  /** `current_heading = number` and `section_numbers[number] = 0`, on a line that is then a picture or nothing. */
  method ReadChapter(ghost ls: seq<Line>, i: nat, h: nat, c: Numbering) returns (c': Numbering)
    requires i < |ls| && ls[i].chapter == Some(h) && Shaped(ls[i]) && NumberingAgrees(ls, i, c)
    ensures NumberingAgrees(ls, i + 1, c') && c'.appendix == c.appendix
  {
    c' := c.(heading := Some(h), sections := c.sections[h := 0]);
    assert forall l :: !InAppendixCaption(ls, i, l);
  }

  /** An allowed letter becomes `current_appendix`, its counter starting at 0 the first time. */
  method ReadAppendixTitle(ghost ls: seq<Line>, i: nat, letter: Option<string>, c: Numbering) returns (c': Numbering)
    requires i < |ls| && ls[i] == Line(None, AppendixTitle(letter)) && NumberingAgrees(ls, i, c)
    ensures NumberingAgrees(ls, i + 1, c')
  {
    c' := c;
    if letter.Some? {
      var l := letter.value;
      c' := c'.(appendix := Some(l));
      if l !in c'.letters {
        c' := c'.(letters := c'.letters[l := 0]);
      }
    }
  }

  /** A caption inside appendix `l`: the letter, then the appendix counter. */
  method ReadAppendixCaption(ghost ls: seq<Line>, i: nat, a: AppendixNumber, l: string, c: Numbering)
    returns (c': Numbering, msgs: seq<Msg>)
    requires i < |ls| && ls[i].chapter.None? && ls[i].shape.FigureCaption? && ls[i].shape.appendix == Some(a)
    requires NumberingAgrees(ls, i, c) && c.appendix == Some(l)
    ensures NumberingAgrees(ls, i + 1, c') && msgs == NumberMessages(ls, i)
  {
    c' := c;
    msgs := [];
    if a.ref.None? || a.ref.value.letter != l {
      msgs := msgs + [ImageAppendixPrefix(l)];
    }
    if a.ref.Some? {
      var n := c.letters[l] + 1;
      c' := c'.(letters := c'.letters[l := n]);
      if a.ref.value.value != n {
        msgs := msgs + [ImageAppendixSequence(l, n, a.number)];
      }
    }
  }

  /** A caption in the main body: the Y.X checks and the chapter counter, the format, then the main counter. */
  method ReadMainCaption(ghost ls: seq<Line>, i: nat, m: MainNumber, c: Numbering) returns (c': Numbering, msgs: seq<Msg>)
    requires i < |ls| && ls[i].chapter.None? && ls[i].shape.FigureCaption? && ls[i].shape.main == Some(m)
    requires 1 <= |m.parts| <= 2
    requires NumberingAgrees(ls, i, c) && c.appendix.None?
    ensures NumberingAgrees(ls, i + 1, c')
    ensures msgs == NumberMessages(ls, i)
  {
    var sections, m1 := CheckSection(m, c);
    var m2: seq<Msg> := [];
    var format := if |m.parts| == 1 then Sequential else Sectioned;
    if c.lastFormat.Some? && c.lastFormat.value != format {
      m2 := [ImageFormatChange(c.lastFormat.value == Sequential)];
    }
    var main, m3 := CheckSequence(m, c.main);
    c' := c.(sections := sections, lastFormat := Some(format), main := main);
    msgs := m1 + m2 + m3;
    MainCaptionAgrees(ls, i, m, c);
    MainMessagesAre(ls, i, m, c);
  }

  /** The Y.X checks, counting the caption in the current chapter. */
  method CheckSection(m: MainNumber, c: Numbering) returns (sections: map<nat, nat>, msgs: seq<Msg>)
    requires 1 <= |m.parts| <= 2 && (c.heading.Some? ==> c.heading.value in c.sections)
    ensures sections == AfterMain(c, m).sections
    ensures msgs == if |m.parts| == 2 then SectionedMessages(m, c.heading, SectionOf(c)) else []
  {
    sections := c.sections;
    msgs := [];
    var parts := m.parts;
    if |parts| == 2 {
      if parts[1] == 0 {
        msgs := msgs + [ImageZeroSecond(m.number)];
      }
      if c.heading.Some? {
        var h := c.heading.value;
        var k := sections[h] + 1;
        sections := sections[h := k];
        var expected := SectionLabel(h, k);
        if m.number != expected {
          msgs := msgs + [ImageSectionSequence(h, expected, m.number)];
        }
      }
    }
  }

  /** `sequential_numbers['main'] += 1` for a caption numbered X, which must then carry that number. */
  method CheckSequence(m: MainNumber, main: nat) returns (main': nat, msgs: seq<Msg>)
    requires 1 <= |m.parts|
    ensures main' == if |m.parts| == 1 then main + 1 else main
    ensures msgs == if |m.parts| == 1 then When(m.parts[0] != main + 1, ImageMainSequence(main + 1, m.number)) else []
  {
    main' := main;
    msgs := [];
    if |m.parts| == 1 {
      main' := main' + 1;
      if m.parts[0] != main' {
        msgs := [ImageMainSequence(main', m.number)];
      }
    }
  }

  /** The numbering after a main-body caption. */
  ghost function AfterMain(c: Numbering, m: MainNumber): Numbering
    requires c.heading.Some? ==> c.heading.value in c.sections
  {
    c.(sections := if |m.parts| == 2 && c.heading.Some? then c.sections[c.heading.value := c.sections[c.heading.value] + 1]
                   else c.sections,
       lastFormat := Some(FormatOf(m)),
       main := if |m.parts| == 1 then c.main + 1 else c.main)
  }

  function SectionOf(c: Numbering): nat {
    if c.heading.Some? && c.heading.value in c.sections then c.sections[c.heading.value] else 0
  }

  lemma MainMessagesAre(ls: seq<Line>, i: nat, m: MainNumber, c: Numbering)
    requires i < |ls| && ls[i].shape.FigureCaption? && ls[i].shape.main == Some(m)
    requires NumberingAgrees(ls, i, c) && c.appendix.None?
    ensures NumberMessages(ls, i) == MainNumberMessages(m, c.heading, SectionOf(c), c.lastFormat, c.main)
  {
    if |m.parts| == 2 {
      assert SectionedMessages(m, HeadingBefore(ls, i), SectionCount(ls, i)) == SectionedMessages(m, c.heading, SectionOf(c));
    }
  }

  lemma MainCaptionAgrees(ls: seq<Line>, i: nat, m: MainNumber, c: Numbering)
    requires i < |ls| && ls[i].chapter.None? && ls[i].shape.FigureCaption? && ls[i].shape.main == Some(m)
    requires NumberingAgrees(ls, i, c) && c.appendix.None?
    ensures NumberingAgrees(ls, i + 1, AfterMain(c, m))
  {
    assert MainAt(ls, i) == Some(m);
    assert forall l :: !InAppendixCaption(ls, i, l);
  }

  /** The style checks of a caption of the right shape at `i`. */
  method CheckCaptionStyle(ps: seq<Paragraph>, i: nat, punct: bool) returns (msgs: seq<Msg>)
    requires i < |ps|
    ensures msgs == CaptionStyleMessages(ps[i], punct, BlankNext(ps, i))
  {
    var p := ps[i];
    msgs := CheckRuns(p.runs);
    if SpacingNot15(p) {
      msgs := msgs + [ImageCaptionLineSpacing];
    }
    if punct {
      msgs := msgs + [ImageCaptionPunct];
    }
    if i + 1 < |ps| && TextOf(ps[i + 1]) == "" {
      msgs := msgs + [ImageCaptionBlankAfter];
    }
  }

  /** The loop over the runs of a caption; only visible runs are checked. */
  method CheckRuns(runs: seq<Run>) returns (msgs: seq<Msg>)
    ensures msgs == RunMessages(runs, CaptionRunMessages)
  {
    msgs := [];
    var k := |runs|;
    while k > 0
      invariant 0 <= k <= |runs|
      invariant msgs == RunMessages(runs[k..], CaptionRunMessages)
    {
      k := k - 1;
      RunMessagesFrom(runs, CaptionRunMessages, k);
      var own := if Visible(runs[k]) then CaptionRunMessages(runs[k]) else [];
      msgs := own + msgs;
    }
  }

  /** A paragraph starting with `Рисунок`: the layout checks, the number checks in whichever form applies, then the style checks. */
  method VisitCaption(ps: seq<Paragraph>, skip: set<nat>, ghost ls: seq<Line>, i: nat, line: Line, c: Numbering)
    returns (c': Numbering, found: seq<Issue>)
    requires |ls| == |ps| && i < |ps| && ls[i] == line && line.shape.FigureCaption? && Shaped(line)
    requires NumberingAgrees(ls, i, c)
    ensures NumberingAgrees(ls, i + 1, c')
    ensures found == LineIssues(ps, skip, ls, i)
  {
    var numbers: seq<Msg>;
    var matched: bool;
    c' := c;
    if c.appendix.Some? {
      match line.shape.appendix {
        case None =>
          numbers, matched := [ImageCaptionShape(true)], false;
          NumberingUntouched(ls, i, c);
        case Some(a) =>
          c', numbers := ReadAppendixCaption(ls, i, a, c.appendix.value, c);
          matched := true;
      }
    } else {
      match line.shape.main {
        case None =>
          numbers, matched := [ImageCaptionShape(false)], false;
          NumberingUntouched(ls, i, c);
        case Some(m) =>
          c', numbers := ReadMainCaption(ls, i, m, c);
          matched := true;
      }
    }
    var style: seq<Msg> := [];
    if matched {
      style := CheckCaptionStyle(ps, i, line.shape.punct);
    }
    var p := ps[i];
    found := ParagraphIssues(p.text, i, CaptionLayoutMessages(p) + numbers + style);
    assert CaptionLayoutMessages(p) + numbers + style == LineMessages(ps, skip, ls, i);
  }

  /** A picture: its layout, and, past the first paragraph, a blank line above it and a caption below it. */
  method VisitPicture(ps: seq<Paragraph>, skip: set<nat>, i: nat, inAppendix: bool) returns (msgs: seq<Msg>)
    requires i < |ps|
    ensures msgs == PictureMessages(ps, skip, i, inAppendix)
  {
    var layout := CheckPictureLayout(ps[i]);
    var around := CheckNeighbours(ps, skip, i, inAppendix);
    msgs := layout + around;
  }

  /** The alignment and indent checks of a picture. */
  method CheckPictureLayout(p: Paragraph) returns (msgs: seq<Msg>)
    ensures msgs == PictureLayoutMessages(p)
  {
    msgs := [];
    if p.alignment != AlignCenter && p.alignment != Inherited {
      msgs := msgs + [ImageNotCentered];
    }
    if FirstIndentSet(p) {
      msgs := msgs + [ImageFirstIndent];
    }
    msgs := msgs + SideIndentMessages(p, ImageWho);
  }

  /** The blank line above a picture and the caption below it. */
  method CheckNeighbours(ps: seq<Paragraph>, skip: set<nat>, i: nat, inAppendix: bool) returns (msgs: seq<Msg>)
    requires i < |ps|
    ensures msgs == PictureNeighbourMessages(ps, skip, i, inAppendix)
  {
    msgs := [];
    if i > 0 {
      if TextOf(ps[i - 1]) == "" {
        msgs := msgs + [ImageBlankBefore];
      }
      var below := false;
      if i + 1 < |ps| {
        var next := TextOf(ps[i + 1]);
        if CaptionMatch(next, FigureWord, inAppendix).Some? && i + 1 !in skip {
          below := true;
        }
      }
      if !below {
        msgs := msgs + [ImageNoCaption];
      }
    }
  }

  /** One pass of the loop: the chapter heading first, then the rest of the body. */
  method VisitLine(ps: seq<Paragraph>, skip: set<nat>, ghost ls: seq<Line>, i: nat, line: Line, c: Numbering)
    returns (c': Numbering, found: seq<Issue>)
    requires |ls| == |ps| && i < |ps| && ls[i] == line && Shaped(line)
    requires NumberingAgrees(ls, i, c)
    ensures NumberingAgrees(ls, i + 1, c')
    ensures found == LineIssues(ps, skip, ls, i)
  {
    c', found := c, [];
    if line.chapter.Some? {
      c' := ReadChapter(ls, i, line.chapter.value, c);
    }
    match line.shape {
      case AppendixTitle(letter) =>
        c' := ReadAppendixTitle(ls, i, letter, c);
      case FigureCaption(_, _, _) =>
        c', found := VisitCaption(ps, skip, ls, i, line, c);
      case Picture =>
        var msgs := VisitPicture(ps, skip, i, c.appendix.Some?);
        found := ParagraphIssues(ps[i].text, i, msgs);
        if line.chapter.None? {
          NumberingUntouched(ls, i, c);
        }
      case Plain =>
        if line.chapter.None? {
          NumberingUntouched(ls, i, c);
        }
    }
  }

  /** What the loop holds after `n` paragraphs. */
  ghost predicate Scanned(ps: seq<Paragraph>, skip: set<nat>, ls: seq<Line>, n: nat, c: Numbering,
                          issues: seq<Issue>, positions: seq<nat>)
  {
    |ls| == |ps| && n <= |ps| && NumberingAgrees(ls, n, c)
    && issues == LineIssuesUpTo(ps, skip, ls, n) && positions == CaptionPositions(ls, n)
  }

  /** The body of the loop, for paragraph `i`. */
  method ScanStep(ps: seq<Paragraph>, skip: set<nat>, ghost ls: seq<Line>, i: nat, c: Numbering,
                  issues: seq<Issue>, positions: seq<nat>)
    returns (c': Numbering, issues': seq<Issue>, positions': seq<nat>)
    requires Classified(ps, skip, ls) && i < |ps| && Scanned(ps, skip, ls, i, c, issues, positions)
    ensures Scanned(ps, skip, ls, i + 1, c', issues', positions')
  {
    var line := ClassifyLine(TextOf(ps[i]), i in skip, ps[i].hasPicture);
    positions' := positions;
    if line.shape.FigureCaption? {
      positions' := positions + [i];
    }
    var found;
    c', found := VisitLine(ps, skip, ls, i, line, c);
    issues' := issues + found;
  }

  /** `check_image_formatting`: the errors, and the positions of the caption paragraphs. */
  method CheckImageFormatting(doc: Doc, skip: set<nat>) returns (issues: seq<Issue>, captions: seq<nat>)
    ensures issues == ImageFormattingIssues(doc, skip)
    ensures captions == CaptionPositions(Lines(doc.paragraphs, skip), |doc.paragraphs|)
  {
    var ps := doc.paragraphs;
    ghost var ls := Lines(ps, skip);
    var c := StartNumbering;
    StartAgrees(ls);
    issues, captions := [], [];
    var i := 0;
    while i < |ps|
      invariant i <= |ps| && Scanned(ps, skip, ls, i, c, issues, captions)
    {
      c, issues, captions := ScanStep(ps, skip, ls, i, c, issues, captions);
      i := i + 1;
    }
  }

  /** The errors of `check_image_formatting`. */
  function ImageFormattingIssues(doc: Doc, skip: set<nat>): seq<Issue> {
    var ps := doc.paragraphs;
    LineIssuesUpTo(ps, skip, Lines(ps, skip), |ps|)
  }

  // ---------------------------------------------------------------------------------
  // What the pass promises.

  /** The loop records exactly the paragraphs taken for captions, each once and in document order. */
  lemma {:induction false} CaptionPositionsAre(ls: seq<Line>, n: nat)
    requires n <= |ls|
    ensures forall i: nat :: i in CaptionPositions(ls, n) <==> i < n && ls[i].shape.FigureCaption?
    ensures forall a, b :: 0 <= a < b < |CaptionPositions(ls, n)| ==> CaptionPositions(ls, n)[a] < CaptionPositions(ls, n)[b]
  {
    if n > 0 {
      CaptionPositionsAre(ls, n - 1);
      var prev := CaptionPositions(ls, n - 1);
      assert forall a :: 0 <= a < |prev| ==> prev[a] in prev;
    }
  }

  /** Two prefixes of one text start with the same character. */
  lemma SameFirst(t: string, a: string, b: string)
    requires StartsWith(t, a) && StartsWith(t, b) && |a| > 0 && |b| > 0
    ensures a[0] == b[0]
  {
    assert a[0] == t[..|a|][0] && b[0] == t[..|b|][0];
  }

  /** A text that starts with `Рисунок` or `рисунок` matches neither the other spelling nor an appendix title. */
  lemma FigureFirst(t: string, word: string)
    requires word == FigureWord || word == FigureWordLower
    requires StartsWith(t, word)
    ensures !StartsWith(t, "Приложение")
    ensures word == FigureWordLower ==> !StartsWith(t, FigureWord + " ")
    ensures word == FigureWord ==> !StartsWith(t, FigureWordLower)
  {
    if StartsWith(t, "Приложение") {
      SameFirst(t, word, "Приложение");
    }
    if word == FigureWordLower && StartsWith(t, FigureWord + " ") {
      SameFirst(t, word, FigureWord + " ");
    }
    if word == FigureWord && StartsWith(t, FigureWordLower) {
      SameFirst(t, word, FigureWordLower);
    }
  }

  /** A line is a caption exactly when its text starts with `Рисунок`, or with `рисунок` and it is not skipped. */
  lemma CaptionShapeIff(t: string, skipped: bool, picture: bool)
    ensures ClassifyLine(t, skipped, picture).shape.FigureCaption? <==> StartsCaption(t, skipped)
  {
    if StartsWith(t, FigureWord) {
      FigureFirst(t, FigureWord);
    } else if StartsWith(t, FigureWordLower) {
      FigureFirst(t, FigureWordLower);
    }
  }

  /**
   * A paragraph is taken for a caption exactly when its text starts with `Рисунок`, or with
   * `рисунок` and it is not to be skipped.
   */
  lemma CaptionsAre(doc: Doc, skip: set<nat>, i: nat)
    ensures var ps := doc.paragraphs;
      i in CaptionPositions(Lines(ps, skip), |ps|)
      <==> i < |ps| && (StartsWith(TextOf(ps[i]), FigureWord) || (StartsWith(TextOf(ps[i]), FigureWordLower) && i !in skip))
  {
    var ps := doc.paragraphs;
    var ls := Lines(ps, skip);
    CaptionPositionsAre(ls, |ps|);
    if i < |ps| {
      CaptionShapeIff(TextOf(ps[i]), i in skip, ps[i].hasPicture);
    }
  }

  /** A caption spelled `рисунок` never has the caption shape: it is always told it is malformed. */
  lemma LowercaseMalformed(t: string)
    requires StartsWith(t, FigureWordLower)
    ensures MainNumberOf(t, FigureWord).None? && AppendixNumberOf(t, FigureWord).None?
  {
    FigureFirst(t, FigureWordLower);
  }

  /** A caption without the caption shape is told only its layout and its shape; its style is not looked at. */
  lemma {:induction false} MalformedCaptionMessages(ps: seq<Paragraph>, ls: seq<Line>, i: nat)
    requires |ls| == |ps| && i < |ps| && ls[i].shape.FigureCaption? && !Matched(ls, i)
    ensures CaptionMessages(ps, ls, i) == CaptionLayoutMessages(ps[i]) + [ImageCaptionShape(AppendixBefore(ls, i).Some?)]
  {
    assert NumberMessages(ls, i) == [ImageCaptionShape(AppendixBefore(ls, i).Some?)];
  }

  /** A picture is told of a missing caption exactly when it is not the first paragraph and no caption of the right shape follows it. */
  lemma NoCaptionReported(ps: seq<Paragraph>, skip: set<nat>, i: nat, inAppendix: bool)
    requires i < |ps|
    ensures ImageNoCaption in PictureMessages(ps, skip, i, inAppendix) <==> i > 0 && !CaptionBelow(ps, skip, i, inAppendix)
    ensures ImageBlankBefore in PictureMessages(ps, skip, i, inAppendix) <==> i > 0 && TextOf(ps[i - 1]) == ""
  {
    var p := ps[i];
    assert ImageNoCaption !in SideIndentMessages(p, ImageWho) && ImageBlankBefore !in SideIndentMessages(p, ImageWho);
  }

  /** The format message is the only one of its kind among the number checks. */
  lemma FormatChangeIn(m: MainNumber, heading: Option<nat>, section: nat, last: Option<Format>, main: nat, b: bool)
    ensures ImageFormatChange(b) in MainNumberMessages(m, heading, section, last, main)
      <==> last == Some(if b then Sequential else Sectioned) && FormatOf(m) != last.value
  {
    if |m.parts| == 2 {
      assert ImageFormatChange(b) !in SectionedMessages(m, heading, section);
    }
  }

  /** A main-body caption is told of a format change exactly when the format of the last one differs. */
  lemma FormatChangeReported(ls: seq<Line>, i: nat, m: MainNumber, b: bool)
    requires i < |ls| && ls[i].shape.FigureCaption? && MainAt(ls, i) == Some(m)
    ensures ImageFormatChange(b) in NumberMessages(ls, i) <==>
      LastFormat(ls, i) == Some(if b then Sequential else Sectioned) && FormatOf(m) != LastFormat(ls, i).value
  {
    FormatChangeIn(m, HeadingBefore(ls, i), SectionCount(ls, i), LastFormat(ls, i), MainCount(ls, i), b);
  }

  /** `last_caption_format` is the format of the last main-body caption before `n`, if there is one. */
  lemma {:induction false} LastFormatIs(ls: seq<Line>, n: nat, j: nat)
    requires j < n <= |ls| && MainAt(ls, j).Some?
    requires forall k :: j < k < n ==> MainAt(ls, k).None?
    ensures LastFormat(ls, n) == Some(FormatOf(MainAt(ls, j).value))
  {
    if j < n - 1 {
      LastFormatIs(ls, n - 1, j);
    }
  }

  /** The main-body sequence message is the only one of its kind among the number checks. */
  lemma MainSequenceIn(m: MainNumber, heading: Option<nat>, section: nat, last: Option<Format>, main: nat)
    requires |m.parts| == 1
    ensures ImageMainSequence(main + 1, m.number) in MainNumberMessages(m, heading, section, last, main) <==> m.parts[0] != main + 1
  {
    assert MainNumberMessages(m, heading, section, last, main)
        == FormatMessages(m, last) + When(m.parts[0] != main + 1, ImageMainSequence(main + 1, m.number));
  }

  /** The `k`-th caption numbered X in the main body must carry the number `k`. */
  lemma MainSequenceReported(ls: seq<Line>, i: nat, m: MainNumber)
    requires i < |ls| && ls[i].shape.FigureCaption? && MainAt(ls, i) == Some(m) && |m.parts| == 1
    ensures ImageMainSequence(MainCount(ls, i) + 1, m.number) in NumberMessages(ls, i) <==> m.parts[0] != MainCount(ls, i) + 1
  {
    MainSequenceIn(m, HeadingBefore(ls, i), SectionCount(ls, i), LastFormat(ls, i), MainCount(ls, i));
  }

  /** The chapter sequence message is the only one of its kind among the number checks. */
  lemma SectionSequenceIn(m: MainNumber, h: nat, section: nat, last: Option<Format>, main: nat)
    requires |m.parts| == 2
    ensures var expected := SectionLabel(h, section + 1);
      ImageSectionSequence(h, expected, m.number) in MainNumberMessages(m, Some(h), section, last, main) <==> m.number != expected
  {
    var expected := SectionLabel(h, section + 1);
    assert MainNumberMessages(m, Some(h), section, last, main)
        == When(m.parts[1] == 0, ImageZeroSecond(m.number)) + When(m.number != expected, ImageSectionSequence(h, expected, m.number))
           + FormatMessages(m, last);
  }

  /** In chapter `h`, the captions numbered Y.X must run `h.1`, `h.2`, ... from the chapter heading on. */
  lemma SectionSequenceReported(ls: seq<Line>, i: nat, m: MainNumber, h: nat)
    requires i < |ls| && ls[i].shape.FigureCaption? && MainAt(ls, i) == Some(m) && |m.parts| == 2
    requires HeadingBefore(ls, i) == Some(h)
    ensures var expected := SectionLabel(h, SectionCount(ls, i) + 1);
      ImageSectionSequence(h, expected, m.number) in NumberMessages(ls, i) <==> m.number != expected
  {
    SectionSequenceIn(m, h, SectionCount(ls, i), LastFormat(ls, i), MainCount(ls, i));
  }

  /** Inside appendix `l`, the captions must run `l.1`, `l.2`, ... however often the appendix is resumed. */
  lemma AppendixSequenceReported(ls: seq<Line>, i: nat, l: string)
    requires i < |ls| && InAppendixCaption(ls, i, l)
    ensures var a := ls[i].shape.appendix.value;
      ImageAppendixSequence(l, AppendixCount(ls, i, l) + 1, a.number) in NumberMessages(ls, i)
      <==> a.ref.value.value != AppendixCount(ls, i, l) + 1
  {
  }

  /** Reading a paragraph with skipping on or off gives the same line unless its text starts with `рисунок`. */
  lemma SkipReadsSame(t: string, picture: bool)
    requires !StartsWith(t, FigureWordLower)
    ensures ClassifyLine(t, true, picture) == ClassifyLine(t, false, picture)
  {
  }

  /** No paragraph to skip starts with `рисунок` or `Рисунок`. */
  predicate SkipsNoFigure(ps: seq<Paragraph>, skip: set<nat>) {
    forall k :: 0 <= k < |ps| && k in skip ==> !StartsWith(TextOf(ps[k]), FigureWordLower) && !StartsWith(TextOf(ps[k]), FigureWord)
  }

  /**
   * Skipping only matters for paragraphs starting with `рисунок` or `Рисунок`: when no such
   * paragraph is to be skipped, the pass reports and collects what it would with nothing
   * to skip. The table captions the pipeline passes in are such a set.
   */
  lemma SkipHarmless(doc: Doc, skip: set<nat>)
    requires SkipsNoFigure(doc.paragraphs, skip)
    ensures Lines(doc.paragraphs, skip) == Lines(doc.paragraphs, {})
    ensures ImageFormattingIssues(doc, skip) == ImageFormattingIssues(doc, {})
  {
    var ps := doc.paragraphs;
    var ls := Lines(ps, skip);
    forall k | 0 <= k < |ps|
      ensures ls[k] == Lines(ps, {})[k]
    {
      if k in skip {
        SkipReadsSame(TextOf(ps[k]), ps[k].hasPicture);
      }
    }
    assert ls == Lines(ps, {});
    forall i | 0 <= i < |ps|
      ensures LineIssues(ps, skip, ls, i) == LineIssues(ps, {}, ls, i)
    {
      LineIssuesSameAt(ps, skip, ls, i);
    }
    LineIssuesSame(ps, skip, ls, |ps|);
  }

  /** The pass over the first `n` paragraphs reports the same under `skip` as with nothing to skip, when each of them does. */
  lemma {:induction false} LineIssuesSame(ps: seq<Paragraph>, skip: set<nat>, ls: seq<Line>, n: nat)
    requires |ls| == |ps| && n <= |ps|
    requires forall i :: 0 <= i < n ==> LineIssues(ps, skip, ls, i) == LineIssues(ps, {}, ls, i)
    ensures LineIssuesUpTo(ps, skip, ls, n) == LineIssuesUpTo(ps, {}, ls, n)
  {
    if n > 0 {
      LineIssuesSame(ps, skip, ls, n - 1);
    }
  }

  lemma LineIssuesSameAt(ps: seq<Paragraph>, skip: set<nat>, ls: seq<Line>, i: nat)
    requires |ls| == |ps| && i < |ps| && SkipsNoFigure(ps, skip)
    ensures LineIssues(ps, skip, ls, i) == LineIssues(ps, {}, ls, i)
  {
    if ls[i].shape.Picture? {
      PictureSame(ps, skip, i, AppendixBefore(ls, i).Some?);
    }
  }

  /** A picture's messages do not depend on `skip`. */
  lemma PictureSame(ps: seq<Paragraph>, skip: set<nat>, i: nat, inAppendix: bool)
    requires i < |ps| && SkipsNoFigure(ps, skip)
    ensures PictureMessages(ps, skip, i, inAppendix) == PictureMessages(ps, {}, i, inAppendix)
  {
    if i + 1 < |ps| && i + 1 in skip && CaptionMatch(TextOf(ps[i + 1]), FigureWord, inAppendix).Some? {
      SameFirst(TextOf(ps[i + 1]), FigureWord, FigureWord + " ");
      assert false;
    }
  }

  /**
   * An example: in chapter 2, after the caption `2.1`, a caption numbered `2.3` is told
   * that `2.2` was expected, and nothing else.
   */
  lemma SectionSequenceExample()
    ensures var ls := [Line(Some(2), Plain), Line(None, FigureCaption(Some(MainNumber("2.1", [2, 1])), None, false)),
                       Line(None, FigureCaption(Some(MainNumber("2.3", [2, 3])), None, false))];
      NumberMessages(ls, 1) == [] && NumberMessages(ls, 2) == [ImageSectionSequence(2, "2.2", "2.3")]
  {
    var ls := [Line(Some(2), Plain), Line(None, FigureCaption(Some(MainNumber("2.1", [2, 1])), None, false)),
               Line(None, FigureCaption(Some(MainNumber("2.3", [2, 3])), None, false))];
    assert NatToString(1) == "1" && NatToString(2) == "2";
    assert SectionLabel(2, 1) == "2.1" && SectionLabel(2, 2) == "2.2";
    assert SectionCount(ls, 2) == 1;
    assert LastFormat(ls, 2) == Some(Sectioned);
  }
}
