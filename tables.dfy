/**
 * The table pass (`check_table_formatting`). The paragraph loop sorts each paragraph by
 * its stripped text: a chapter heading `N text`, an appendix title, a table caption
 * `Таблица <number> – <Name>`, or a continuation or ending line `Продолжение таблицы <ref>` /
 * `Окончание таблицы <ref>`. It keeps the current appendix and chapter, a counter per
 * appendix letter, a counter per chapter, the main-body counter, the format of the last
 * main-body caption, the numbers captioned so far and whether each number is left
 * continued. The table loop then checks each table's alignment, its caption and the line
 * after it, and the last loop reports each continued table that has no ending.
 */
module Tables {
  import opened Wrappers
  import opened Text
  import opened Patterns
  import opened Document
  import opened Messages
  import opened Errors
  import opened Captions

  const TableWord: string := "Таблица"
  const ContinuationHead: string := "Продолжение таблицы "
  const EndingHead: string := "Окончание таблицы "

  const CaptionHead: string := "Таблица "

  // ---------------------------------------------------------------------------------
  // Sorting one stripped text.

  /**
   * What a paragraph is to the pass. A caption carries the match of both caption patterns,
   * since which one applies depends on whether an appendix has begun; `punct` says the
   * text ends in punctuation. A reference line carries its number, the letter the letter
   * pattern finds in it, and the first 25 characters of the text.
   */
  datatype Line =
    | Heading(chapter: nat)
    | AppendixTitle(letter: Option<string>)
    | TableCaption(main: Option<MainNumber>, appendix: Option<AppendixNumber>, punct: bool)
    | Continuation(ref: string, refLetter: Option<string>, head: string)
    | Ending(ref: string, refLetter: Option<string>, head: string)
    | Plain

  /** `text[:25]`. */
  function Head25(t: string): string {
    t[..if |t| < 25 then |t| else 25]
  }

  function RefLetter(r: string): Option<string> {
    match LetterNumberMatch(r)
    case Some(n) => Some(n.letter)
    case None => None
  }

  /** The tests of the loop body in the source's order; a chapter heading starts with a digit, so it is none of the others. */
  function ClassifyLine(t: string): (l: Line)
    ensures Shaped(l)
  {
    if ChapterHeadingMatch(t).Some? then Heading(ChapterHeadingMatch(t).value)
    else if StartsWith(t, "Приложение") then AppendixTitle(ValidLetter(t))
    else if StartsWith(t, TableWord) then TableCaption(MainNumberOf(t, TableWord), AppendixNumberOf(t, TableWord), EndsWithPunct(t))
    else if ContinuationMatch(t, ContinuationHead).Some? then
      var r := ContinuationMatch(t, ContinuationHead).value;
      Continuation(r, RefLetter(r), Head25(t))
    else if ContinuationMatch(t, EndingHead).Some? then
      var r := ContinuationMatch(t, EndingHead).value;
      Ending(r, RefLetter(r), Head25(t))
    else Plain
  }

  /** A main-body caption number has one or two parts. */
  predicate Shaped(l: Line) {
    l.TableCaption? && l.main.Some? ==> 1 <= |l.main.value.parts| <= 2
  }

  /** The lines of a document, paragraph by paragraph. */
  function Lines(ps: seq<Paragraph>): (ls: seq<Line>)
    ensures Classified(ps, ls)
  {
    seq(|ps|, i requires 0 <= i < |ps| => ClassifyLine(TextOf(ps[i])))
  }

  /** `ls` holds the line of each paragraph. */
  predicate Classified(ps: seq<Paragraph>, ls: seq<Line>) {
    |ls| == |ps| && forall k :: 0 <= k < |ps| ==> ls[k] == ClassifyLine(TextOf(ps[k]))
  }

  /** A chapter heading is never also an appendix title, a caption or a reference line. */
  lemma HeadingIsNothingElse(t: string)
    requires ChapterHeadingMatch(t).Some?
    ensures !StartsWith(t, "Приложение") && !StartsWith(t, TableWord)
    ensures ContinuationMatch(t, ContinuationHead).None? && ContinuationMatch(t, EndingHead).None?
  {
    assert IsDigit(t[0]);
    OtherFirst(t, "Приложение");
    OtherFirst(t, TableWord);
    OtherFirst(t, ContinuationHead);
    OtherFirst(t, EndingHead);
  }

  /** A text does not start with a word whose first letter it does not start with. */
  lemma OtherFirst(t: string, w: string)
    requires |t| > 0 && |w| > 0 && t[0] != w[0]
    ensures !StartsWith(t, w)
  {
  }

  // ---------------------------------------------------------------------------------
  // What the loop has seen before paragraph `n`: each variable of the source as a
  // function of the lines.

  /** `current_appendix`: the letter of the last appendix title with an allowed letter. */
  function AppendixBefore(ls: seq<Line>, n: nat): Option<string>
    requires n <= |ls|
  {
    if n == 0 then None
    else if ls[n - 1].AppendixTitle? && ls[n - 1].letter.Some? then ls[n - 1].letter
    else AppendixBefore(ls, n - 1)
  }

  /** `current_heading`: the number of the last chapter heading. */
  function HeadingBefore(ls: seq<Line>, n: nat): Option<nat>
    requires n <= |ls|
  {
    if n == 0 then None
    else if ls[n - 1].Heading? then Some(ls[n - 1].chapter)
    else HeadingBefore(ls, n - 1)
  }

  /** The keys of `heading_numbers`: every chapter number seen. */
  function HeadingsBefore(ls: seq<Line>, n: nat): set<nat>
    requires n <= |ls|
  {
    if n == 0 then {}
    else HeadingsBefore(ls, n - 1) + (if ls[n - 1].Heading? then {ls[n - 1].chapter} else {})
  }

  /** The caption at `i` read in the main-body form, when no appendix has begun. */
  function MainAt(ls: seq<Line>, i: nat): Option<MainNumber>
    requires i < |ls|
  {
    if ls[i].TableCaption? && AppendixBefore(ls, i).None? then ls[i].main else None
  }

  /** The caption at `i` read in the appendix form, inside appendix `l`. */
  predicate InAppendixCaption(ls: seq<Line>, i: nat, l: string)
    requires i < |ls|
  {
    ls[i].TableCaption? && AppendixBefore(ls, i) == Some(l)
    && ls[i].appendix.Some? && ls[i].appendix.value.ref.Some?
  }

  predicate IsSequential(ls: seq<Line>, i: nat)
    requires i < |ls|
  {
    MainAt(ls, i).Some? && |MainAt(ls, i).value.parts| == 1
  }

  predicate IsSectioned(ls: seq<Line>, i: nat)
    requires i < |ls|
  {
    MainAt(ls, i).Some? && |MainAt(ls, i).value.parts| == 2
  }

  /** `sequential_numbers['main']`: the main-body captions numbered X so far. */
  function MainCount(ls: seq<Line>, n: nat): nat
    requires n <= |ls|
  {
    if n == 0 then 0 else MainCount(ls, n - 1) + (if IsSequential(ls, n - 1) then 1 else 0)
  }

  /** `sequential_numbers[l]`: the captions of appendix `l` so far, wherever the appendix was resumed. */
  function AppendixCount(ls: seq<Line>, n: nat, l: string): nat
    requires n <= |ls|
  {
    if n == 0 then 0 else AppendixCount(ls, n - 1, l) + (if InAppendixCaption(ls, n - 1, l) then 1 else 0)
  }

  /**
   * `section_numbers[current_heading]`: the captions numbered Y.X since the last chapter
   * heading, which set the counter of its number back to 0.
   */
  function SectionCount(ls: seq<Line>, n: nat): nat
    requires n <= |ls|
  {
    if n == 0 then 0
    else if ls[n - 1].Heading? then 0
    else SectionCount(ls, n - 1) + (if IsSectioned(ls, n - 1) && HeadingBefore(ls, n - 1).Some? then 1 else 0)
  }

  /** `last_caption_format`: the format of the last main-body caption. */
  function LastFormat(ls: seq<Line>, n: nat): Option<Format>
    requires n <= |ls|
  {
    if n == 0 then None
    else if MainAt(ls, n - 1).Some? then Some(FormatOf(MainAt(ls, n - 1).value))
    else LastFormat(ls, n - 1)
  }

  /** The number a well-formed caption at `i` carries, in whichever form applies there. */
  function CaptionNumberAt(ls: seq<Line>, i: nat): Option<string>
    requires i < |ls|
  {
    if !ls[i].TableCaption? then None
    else if AppendixBefore(ls, i).Some? then
      (if ls[i].appendix.Some? then Some(ls[i].appendix.value.number) else None)
    else if ls[i].main.Some? then Some(ls[i].main.value.number)
    else None
  }

  /** The keys of `table_captions`. */
  function CaptionsBefore(ls: seq<Line>, n: nat): set<string>
    requires n <= |ls|
  {
    if n == 0 then {}
    else CaptionsBefore(ls, n - 1) + (if CaptionNumberAt(ls, n - 1).Some? then {CaptionNumberAt(ls, n - 1).value} else {})
  }

  /** What paragraph `i` writes into `continuation_tracker`: a number, and whether it is left continued. */
  function MarkAt(ls: seq<Line>, i: nat): Option<(string, bool)>
    requires i < |ls|
  {
    match ls[i]
    case Continuation(r, _, _) => Some((r, true))
    case Ending(r, _, _) => Some((r, false))
    case _ => if CaptionNumberAt(ls, i).Some? then Some((CaptionNumberAt(ls, i).value, false)) else None
  }

  /** `continuation_tracker[r]`: the last mark for `r`, if any. */
  function LastMark(ls: seq<Line>, n: nat, r: string): Option<bool>
    requires n <= |ls|
  {
    if n == 0 then None
    else if MarkAt(ls, n - 1).Some? && MarkAt(ls, n - 1).value.0 == r then Some(MarkAt(ls, n - 1).value.1)
    else LastMark(ls, n - 1, r)
  }

  /** The numbers of `continuation_tracker` in the order they were first written. */
  function MarkOrder(ls: seq<Line>, n: nat): seq<string>
    requires n <= |ls|
  {
    if n == 0 then []
    else
      var prev := MarkOrder(ls, n - 1);
      if MarkAt(ls, n - 1).Some? && MarkAt(ls, n - 1).value.0 !in prev then prev + [MarkAt(ls, n - 1).value.0]
      else prev
  }

  /** `continuation_tracker['paragraph']`: the position of the last paragraph that wrote a mark. */
  function MarkerBefore(ls: seq<Line>, n: nat): Option<nat>
    requires n <= |ls|
  {
    if n == 0 then None
    else if MarkAt(ls, n - 1).Some? then Some(n - 1)
    else MarkerBefore(ls, n - 1)
  }

  // ---------------------------------------------------------------------------------
  // What one line is told.

  /** The checks every caption and reference line gets, reported straight into `errors`. */
  function CaptionLayoutMessages(p: Paragraph): seq<Msg> {
    When(FirstIndentSet(p), TableCaptionFirstIndent)
    + SideIndentMessages(p, TableCaptionWho)
    + When(SpacingSet(p), TableCaptionSpacing)
    + When(p.alignment != AlignLeft && p.alignment != Inherited, TableCaptionAlignment)
  }

  /** `run.font.size and run.font.size.pt != 14`, and the other checks of a visible run. */
  function CaptionRunMessages(r: Run): seq<Msg> {
    When(FontLacksTimes(r), TableCaptionFont)
    + When(HasSize(r) && r.size.value != 28, TableCaptionSize)
    + When(IsTrue(r.bold), TableCaptionBold)
    + When(IsTrue(r.italic), TableCaptionItalic)
  }

  /** The checks of a caption's text after its number. */
  function CaptionStyleMessages(p: Paragraph, punct: bool): seq<Msg> {
    RunMessages(p.runs, CaptionRunMessages)
    + When(SpacingNot15(p), TableCaptionLineSpacing)
    + When(punct, TableCaptionPunct)
  }

  /** The number checks inside appendix `l`, whose counter stood at `count`. */
  function AppendixNumberMessages(l: string, a: AppendixNumber, count: nat): seq<Msg> {
    When(a.ref.None? || a.ref.value.letter != l, TableAppendixPrefix(l))
    + (if a.ref.Some? then When(a.ref.value.value != count + 1, TableAppendixSequence(l, count + 1, a.number)) else [])
  }

  /** Y.X: a zero X, an unknown chapter Y, and the number expected in the current chapter. */
  function SectionedMessages(m: MainNumber, headings: set<nat>, heading: Option<nat>, section: nat): seq<Msg>
    requires |m.parts| == 2
  {
    When(m.parts[1] == 0, TableZeroSecond(m.number))
    + When(m.parts[0] !in headings, TableUnknownHeading(m.parts[0]))
    + (match heading
       case None => []
       case Some(h) =>
         When(m.number != SectionLabel(h, section + 1), TableSectionSequence(h, SectionLabel(h, section + 1), m.number)))
  }

  /** The format of the previous main-body caption, when there was one, must be this one's. */
  function FormatMessages(m: MainNumber, last: Option<Format>): seq<Msg> {
    if last.Some? && last.value != FormatOf(m) then [TableFormatChange(last.value == Sequential)] else []
  }

  /** The number checks in the main body. */
  function MainNumberMessages(m: MainNumber, headings: set<nat>, heading: Option<nat>, section: nat,
                              last: Option<Format>, main: nat): seq<Msg>
  {
    (if |m.parts| == 2 then SectionedMessages(m, headings, heading, section) else [])
    + FormatMessages(m, last)
    + (if |m.parts| == 1 then When(m.parts[0] != main + 1, TableMainSequence(main + 1, m.number)) else [])
  }

  /** What the caption at `i` is told about its shape and number, in the order of the checks. */
  function NumberMessages(ls: seq<Line>, i: nat): seq<Msg>
    requires i < |ls| && ls[i].TableCaption?
  {
    match AppendixBefore(ls, i)
    case Some(l) =>
      (match ls[i].appendix
       case None => [TableCaptionShape(true)]
       case Some(a) => AppendixNumberMessages(l, a, AppendixCount(ls, i, l)))
    case None =>
      (match ls[i].main
       case None => [TableCaptionShape(false)]
       case Some(m) =>
         MainNumberMessages(m, HeadingsBefore(ls, i), HeadingBefore(ls, i), SectionCount(ls, i),
                            LastFormat(ls, i), MainCount(ls, i)))
  }

  /** What a continuation or ending line at `i` is told: a number not captioned, or not of the current appendix. */
  function ReferenceMessages(ls: seq<Line>, i: nat): seq<Msg>
    requires i < |ls| && (ls[i].Continuation? || ls[i].Ending?)
  {
    var l := ls[i];
    When(l.ref !in CaptionsBefore(ls, i), if l.Continuation? then ContinuationOrphan(l.ref) else EndingOrphan(l.ref))
    + (match AppendixBefore(ls, i)
       case None => []
       case Some(a) =>
         When(l.refLetter != Some(a), if l.Continuation? then ContinuationAppendix(a, l.head) else EndingAppendix(a, l.head)))
  }

  /** What a caption is told: its layout, its number, then its style. */
  function CaptionMessages(p: Paragraph, ls: seq<Line>, i: nat, punct: bool): seq<Msg>
    requires i < |ls| && ls[i].TableCaption?
  {
    CaptionLayoutMessages(p) + NumberMessages(ls, i) + CaptionStyleMessages(p, punct)
  }

  /** What the paragraph loop tells paragraph `i`. */
  function LineMessages(ps: seq<Paragraph>, ls: seq<Line>, i: nat): seq<Msg>
    requires |ls| == |ps| && i < |ps|
  {
    var p := ps[i];
    match ls[i]
    case TableCaption(_, _, punct) => CaptionMessages(p, ls, i, punct)
    case Continuation(_, _, _) => CaptionLayoutMessages(p) + ReferenceMessages(ls, i)
    case Ending(_, _, _) => CaptionLayoutMessages(p) + ReferenceMessages(ls, i)
    case _ => []
  }

  /** The errors the paragraph loop reports for paragraph `i`. */
  function LineIssues(ps: seq<Paragraph>, ls: seq<Line>, i: nat): seq<Issue>
    requires |ls| == |ps| && i < |ps|
  {
    ParagraphIssues(ps[i].text, i, LineMessages(ps, ls, i))
  }

  function LineIssuesUpTo(ps: seq<Paragraph>, ls: seq<Line>, n: nat): seq<Issue>
    requires |ls| == |ps| && n <= |ps|
  {
    if n == 0 then [] else LineIssuesUpTo(ps, ls, n - 1) + LineIssues(ps, ls, n - 1)
  }

  predicate IsCaptionLine(l: Line) {
    l.TableCaption? || l.Continuation? || l.Ending?
  }

  /** `table_indices`: the captions and the reference lines, in order. */
  function CaptionPositions(ls: seq<Line>, n: nat): seq<nat>
    requires n <= |ls|
  {
    if n == 0 then [] else CaptionPositions(ls, n - 1) + (if IsCaptionLine(ls[n - 1]) then [n - 1] else [])
  }

  // ---------------------------------------------------------------------------------
  // The paragraph loop.

  /**
   * The loop's numbering variables: `current_appendix`, `current_heading`, the keys of
   * `heading_numbers`, `section_numbers`, `sequential_numbers` (its main-body entry apart,
   * as `main`) and `last_caption_format`.
   */
  datatype Numbering = Numbering(
    appendix: Option<string>,
    heading: Option<nat>,
    headings: set<nat>,
    sections: map<nat, nat>,
    letters: map<string, nat>,
    main: nat,
    lastFormat: Option<Format>)

  /**
   * The loop's record of captions: the keys of `table_captions`, and `continuation_tracker`
   * as the order its numbers were first written, their values, and the position of its
   * `'paragraph'` entry.
   */
  datatype Tracking = Tracking(
    captions: set<string>,
    order: seq<string>,
    tracker: map<string, bool>,
    marker: Option<nat>)

  /** The numbering variables hold, after `n` paragraphs, what the lines say they should. */
  ghost predicate NumberingAgrees(ls: seq<Line>, n: nat, c: Numbering)
    requires n <= |ls|
  {
    && c.appendix == AppendixBefore(ls, n)
    && c.heading == HeadingBefore(ls, n)
    && c.headings == HeadingsBefore(ls, n)
    && (c.heading.Some? ==> c.heading.value in c.sections && c.sections[c.heading.value] == SectionCount(ls, n))
    && (c.appendix.Some? ==> c.appendix.value in c.letters)
    && (forall l :: l in c.letters ==> c.letters[l] == AppendixCount(ls, n, l))
    && (forall l :: l !in c.letters ==> AppendixCount(ls, n, l) == 0)
    && c.main == MainCount(ls, n)
    && c.lastFormat == LastFormat(ls, n)
  }

  /** The record of captions holds, after `n` paragraphs, what the lines say it should. */
  ghost predicate TrackingAgrees(ls: seq<Line>, n: nat, t: Tracking)
    requires n <= |ls|
  {
    && t.captions == CaptionsBefore(ls, n)
    && t.order == MarkOrder(ls, n)
    && (forall r :: r in t.tracker <==> r in t.order)
    && (forall r :: r in t.tracker ==> LastMark(ls, n, r) == Some(t.tracker[r]))
    && t.marker == MarkerBefore(ls, n)
  }

  const StartNumbering: Numbering := Numbering(None, None, {}, map[], map[], 0, None)
  const StartTracking: Tracking := Tracking({}, [], map[], None)

  lemma StartAgrees(ls: seq<Line>)
    ensures NumberingAgrees(ls, 0, StartNumbering) && TrackingAgrees(ls, 0, StartTracking)
  {
  }

  /** `continuation_tracker[r] = b` and `continuation_tracker['paragraph'] = paragraph`. */
  function Mark(t: Tracking, r: string, b: bool, i: nat): Tracking {
    t.(order := if r in t.tracker then t.order else t.order + [r], tracker := t.tracker[r := b], marker := Some(i))
  }

  /** A well-formed caption: `table_captions[number] = 'main'` and a mark that is not continued. */
  lemma CaptionTracked(ls: seq<Line>, i: nat, t: Tracking, number: string)
    requires i < |ls| && TrackingAgrees(ls, i, t) && CaptionNumberAt(ls, i) == Some(number)
    ensures TrackingAgrees(ls, i + 1, Mark(t.(captions := t.captions + {number}), number, false, i))
  {
  }

  /** A continuation or ending line writes its mark only. */
  lemma ReferenceTracked(ls: seq<Line>, i: nat, t: Tracking)
    requires i < |ls| && TrackingAgrees(ls, i, t) && (ls[i].Continuation? || ls[i].Ending?)
    ensures TrackingAgrees(ls, i + 1, Mark(t, ls[i].ref, ls[i].Continuation?, i))
  {
  }

  /** A line that writes no mark leaves the record as it was. */
  lemma Untracked(ls: seq<Line>, i: nat, t: Tracking)
    requires i < |ls| && TrackingAgrees(ls, i, t) && MarkAt(ls, i).None?
    ensures TrackingAgrees(ls, i + 1, t)
  {
  }

  /** A line that is no heading, no appendix title and no well-formed caption leaves the numbering as it was. */
  lemma NumberingUntouched(ls: seq<Line>, i: nat, c: Numbering)
    requires i < |ls| && NumberingAgrees(ls, i, c)
    requires !ls[i].Heading? && !ls[i].AppendixTitle? && CaptionNumberAt(ls, i).None?
    ensures NumberingAgrees(ls, i + 1, c)
  {
    assert forall l :: !InAppendixCaption(ls, i, l);
  }

  /** `current_heading = number`, `heading_numbers[number] = i`, `section_numbers[number] = 0`. */
  method ReadHeading(ghost ls: seq<Line>, i: nat, h: nat, c: Numbering) returns (c': Numbering)
    requires i < |ls| && ls[i] == Heading(h) && NumberingAgrees(ls, i, c)
    ensures NumberingAgrees(ls, i + 1, c')
  {
    c' := c.(heading := Some(h), headings := c.headings + {h}, sections := c.sections[h := 0]);
  }

  /** An allowed letter becomes `current_appendix`, its counter starting at 0 the first time. */
  method ReadAppendixTitle(ghost ls: seq<Line>, i: nat, letter: Option<string>, c: Numbering) returns (c': Numbering)
    requires i < |ls| && ls[i] == AppendixTitle(letter) && NumberingAgrees(ls, i, c)
    ensures NumberingAgrees(ls, i + 1, c')
  {
    c' := c;
    if letter.Some? {
      var l := letter.value;
      c' := c'.(appendix := Some(l));
      if l !in c'.letters {
        c' := c'.(letters := c'.letters[l := 0]);
      }
    }
  }

  /** A caption inside appendix `l`: the letter, then the appendix counter. */
  method ReadAppendixCaption(ghost ls: seq<Line>, i: nat, a: AppendixNumber, l: string, c: Numbering)
    returns (c': Numbering, msgs: seq<Msg>)
    requires i < |ls| && ls[i].TableCaption? && ls[i].appendix == Some(a)
    requires NumberingAgrees(ls, i, c) && c.appendix == Some(l)
    ensures NumberingAgrees(ls, i + 1, c') && msgs == NumberMessages(ls, i)
  {
    c' := c;
    msgs := [];
    if a.ref.None? || a.ref.value.letter != l {
      msgs := msgs + [TableAppendixPrefix(l)];
    }
    if a.ref.Some? {
      var n := c.letters[l] + 1;
      c' := c'.(letters := c'.letters[l := n]);
      if a.ref.value.value != n {
        msgs := msgs + [TableAppendixSequence(l, n, a.number)];
      }
    }
  }

  /** A caption in the main body: the Y.X checks and the chapter counter, the format, then the main counter. */
  method ReadMainCaption(ghost ls: seq<Line>, i: nat, m: MainNumber, c: Numbering) returns (c': Numbering, msgs: seq<Msg>)
    requires i < |ls| && ls[i].TableCaption? && ls[i].main == Some(m) && 1 <= |m.parts| <= 2
    requires NumberingAgrees(ls, i, c) && c.appendix.None?
    ensures NumberingAgrees(ls, i + 1, c')
    ensures msgs == NumberMessages(ls, i)
  {
    var sections, m1 := CheckSection(m, c);
    var m2: seq<Msg> := [];
    var format := if |m.parts| == 1 then Sequential else Sectioned;
    if c.lastFormat.Some? && c.lastFormat.value != format {
      m2 := [TableFormatChange(c.lastFormat.value == Sequential)];
    }
    var main, m3 := CheckSequence(m, c.main);
    c' := c.(sections := sections, lastFormat := Some(format), main := main);
    msgs := m1 + m2 + m3;
    MainCaptionAgrees(ls, i, m, c);
    MainMessagesAre(ls, i, m, c);
  }

  /** The Y.X checks, counting the caption in the current chapter. */
  method CheckSection(m: MainNumber, c: Numbering) returns (sections: map<nat, nat>, msgs: seq<Msg>)
    requires 1 <= |m.parts| <= 2 && (c.heading.Some? ==> c.heading.value in c.sections)
    ensures sections == AfterMain(c, m).sections
    ensures msgs == if |m.parts| == 2 then SectionedMessages(m, c.headings, c.heading, SectionOf(c)) else []
  {
    sections := c.sections;
    msgs := [];
    var parts := m.parts;
    if |parts| == 2 {
      if parts[1] == 0 {
        msgs := msgs + [TableZeroSecond(m.number)];
      }
      if parts[0] !in c.headings {
        msgs := msgs + [TableUnknownHeading(parts[0])];
      }
      if c.heading.Some? {
        var h := c.heading.value;
        var k := sections[h] + 1;
        sections := sections[h := k];
        var expected := SectionLabel(h, k);
        if m.number != expected {
          msgs := msgs + [TableSectionSequence(h, expected, m.number)];
        }
      }
    }
  }

  /** `sequential_numbers['main'] += 1` for a caption numbered X, which must then carry that number. */
  method CheckSequence(m: MainNumber, main: nat) returns (main': nat, msgs: seq<Msg>)
    requires 1 <= |m.parts|
    ensures main' == if |m.parts| == 1 then main + 1 else main
    ensures msgs == if |m.parts| == 1 then When(m.parts[0] != main + 1, TableMainSequence(main + 1, m.number)) else []
  {
    main' := main;
    msgs := [];
    if |m.parts| == 1 {
      main' := main' + 1;
      if m.parts[0] != main' {
        msgs := [TableMainSequence(main', m.number)];
      }
    }
  }

  /** The numbering after a main-body caption. */
  ghost function AfterMain(c: Numbering, m: MainNumber): Numbering
    requires c.heading.Some? ==> c.heading.value in c.sections
  {
    c.(sections := if |m.parts| == 2 && c.heading.Some? then c.sections[c.heading.value := c.sections[c.heading.value] + 1]
                   else c.sections,
       lastFormat := Some(FormatOf(m)),
       main := if |m.parts| == 1 then c.main + 1 else c.main)
  }

  function SectionOf(c: Numbering): nat {
    if c.heading.Some? && c.heading.value in c.sections then c.sections[c.heading.value] else 0
  }

  lemma MainMessagesAre(ls: seq<Line>, i: nat, m: MainNumber, c: Numbering)
    requires i < |ls| && ls[i].TableCaption? && ls[i].main == Some(m)
    requires NumberingAgrees(ls, i, c) && c.appendix.None?
    ensures NumberMessages(ls, i) == MainNumberMessages(m, c.headings, c.heading, SectionOf(c), c.lastFormat, c.main)
  {
    if |m.parts| == 2 {
      assert SectionedMessages(m, HeadingsBefore(ls, i), HeadingBefore(ls, i), SectionCount(ls, i))
          == SectionedMessages(m, c.headings, c.heading, SectionOf(c));
    }
  }

  lemma MainCaptionAgrees(ls: seq<Line>, i: nat, m: MainNumber, c: Numbering)
    requires i < |ls| && ls[i].TableCaption? && ls[i].main == Some(m)
    requires NumberingAgrees(ls, i, c) && c.appendix.None?
    ensures NumberingAgrees(ls, i + 1, AfterMain(c, m))
  {
    assert MainAt(ls, i) == Some(m);
    assert forall l :: !InAppendixCaption(ls, i, l);
  }

  /** The checks of a continuation (`continued`) or ending line that refers to `r`. */
  method CheckReference(r: string, refLetter: Option<string>, head: string, continued: bool, captions: set<string>,
                        appendix: Option<string>) returns (msgs: seq<Msg>)
    ensures msgs == When(r !in captions, if continued then ContinuationOrphan(r) else EndingOrphan(r))
                    + (match appendix
                       case None => []
                       case Some(a) => When(refLetter != Some(a), if continued then ContinuationAppendix(a, head) else EndingAppendix(a, head)))
  {
    msgs := [];
    if r !in captions {
      msgs := [if continued then ContinuationOrphan(r) else EndingOrphan(r)];
    }
    if appendix.Some? && refLetter != Some(appendix.value) {
      var a := appendix.value;
      msgs := msgs + [if continued then ContinuationAppendix(a, head) else EndingAppendix(a, head)];
    }
  }

  /** A line starting with `Таблица`: the layout checks, the number checks in whichever form applies, then the style checks. */
  method VisitCaption(ps: seq<Paragraph>, ghost ls: seq<Line>, i: nat, line: Line, c: Numbering, t: Tracking)
    returns (c': Numbering, t': Tracking, found: seq<Issue>)
    requires |ls| == |ps| && i < |ps| && ls[i] == line && line.TableCaption? && Shaped(line)
    requires NumberingAgrees(ls, i, c) && TrackingAgrees(ls, i, t)
    ensures NumberingAgrees(ls, i + 1, c') && TrackingAgrees(ls, i + 1, t')
    ensures found == LineIssues(ps, ls, i)
  {
    var numbers: seq<Msg>;
    c', t' := c, t;
    if c.appendix.Some? {
      match line.appendix
      case None =>
        numbers := [TableCaptionShape(true)];
        NumberingUntouched(ls, i, c);
        Untracked(ls, i, t);
      case Some(a) =>
        c', numbers := ReadAppendixCaption(ls, i, a, c.appendix.value, c);
        CaptionTracked(ls, i, t, a.number);
        t' := Mark(t.(captions := t.captions + {a.number}), a.number, false, i);
    } else {
      match line.main
      case None =>
        numbers := [TableCaptionShape(false)];
        NumberingUntouched(ls, i, c);
        Untracked(ls, i, t);
      case Some(m) =>
        c', numbers := ReadMainCaption(ls, i, m, c);
        CaptionTracked(ls, i, t, m.number);
        t' := Mark(t.(captions := t.captions + {m.number}), m.number, false, i);
    }
    var p := ps[i];
    found := ParagraphIssues(p.text, i, CaptionLayoutMessages(p) + numbers + CaptionStyleMessages(p, line.punct));
    assert CaptionLayoutMessages(p) + numbers + CaptionStyleMessages(p, line.punct) == LineMessages(ps, ls, i);
  }

  /** One pass of the paragraph loop. */
  method VisitLine(ps: seq<Paragraph>, ghost ls: seq<Line>, i: nat, line: Line, c: Numbering, t: Tracking)
    returns (c': Numbering, t': Tracking, found: seq<Issue>)
    requires |ls| == |ps| && i < |ps| && ls[i] == line && Shaped(line)
    requires NumberingAgrees(ls, i, c) && TrackingAgrees(ls, i, t)
    ensures NumberingAgrees(ls, i + 1, c') && TrackingAgrees(ls, i + 1, t')
    ensures found == LineIssues(ps, ls, i)
  {
    c', t', found := c, t, [];
    match line
    case Heading(h) =>
      c' := ReadHeading(ls, i, h, c);
      Untracked(ls, i, t);
    case AppendixTitle(letter) =>
      c' := ReadAppendixTitle(ls, i, letter, c);
      Untracked(ls, i, t);
    case TableCaption(_, _, _) =>
      c', t', found := VisitCaption(ps, ls, i, line, c, t);
    case Continuation(r, refLetter, head) =>
      var refs := CheckReference(r, refLetter, head, true, t.captions, c.appendix);
      found := ParagraphIssues(ps[i].text, i, CaptionLayoutMessages(ps[i]) + refs);
      NumberingUntouched(ls, i, c);
      ReferenceTracked(ls, i, t);
      t' := Mark(t, r, true, i);
    case Ending(r, refLetter, head) =>
      var refs := CheckReference(r, refLetter, head, false, t.captions, c.appendix);
      found := ParagraphIssues(ps[i].text, i, CaptionLayoutMessages(ps[i]) + refs);
      NumberingUntouched(ls, i, c);
      ReferenceTracked(ls, i, t);
      t' := Mark(t, r, false, i);
    case Plain =>
      NumberingUntouched(ls, i, c);
      Untracked(ls, i, t);
  }

  /** The paragraph loop: its errors, `table_indices`, and the record of captions it leaves for the last loop. */
  method ScanLines(ps: seq<Paragraph>, ghost ls: seq<Line>) returns (issues: seq<Issue>, positions: seq<nat>, t: Tracking)
    requires Classified(ps, ls)
    ensures issues == LineIssuesUpTo(ps, ls, |ps|)
    ensures positions == CaptionPositions(ls, |ps|)
    ensures TrackingAgrees(ls, |ps|, t)
  {
    var c := StartNumbering;
    t := StartTracking;
    StartAgrees(ls);
    issues, positions := [], [];
    var i := 0;
    while i < |ps|
      invariant i <= |ps| && Scanned(ps, ls, i, c, t, issues, positions)
    {
      c, t, issues, positions := ScanStep(ps, ls, i, c, t, issues, positions);
      i := i + 1;
    }
  }

  /** What the paragraph loop holds after `n` paragraphs. */
  ghost predicate Scanned(ps: seq<Paragraph>, ls: seq<Line>, n: nat, c: Numbering, t: Tracking,
                          issues: seq<Issue>, positions: seq<nat>)
  {
    |ls| == |ps| && n <= |ps|
    && NumberingAgrees(ls, n, c) && TrackingAgrees(ls, n, t)
    && issues == LineIssuesUpTo(ps, ls, n) && positions == CaptionPositions(ls, n)
  }

  /** The body of the paragraph loop, for paragraph `i`. */
  method ScanStep(ps: seq<Paragraph>, ghost ls: seq<Line>, i: nat, c: Numbering, t: Tracking,
                  issues: seq<Issue>, positions: seq<nat>)
    returns (c': Numbering, t': Tracking, issues': seq<Issue>, positions': seq<nat>)
    requires Classified(ps, ls) && i < |ps| && Scanned(ps, ls, i, c, t, issues, positions)
    ensures Scanned(ps, ls, i + 1, c', t', issues', positions')
  {
    var line := ClassifyLine(TextOf(ps[i]));
    positions' := positions;
    if IsCaptionLine(line) {
      positions' := positions + [i];
    }
    var found;
    c', t', found := VisitLine(ps, ls, i, line, c, t);
    issues' := issues + found;
  }

  // ---------------------------------------------------------------------------------
  // The table loop.

  /** The prefixes the table loop accepts in the paragraph above a table. */
  predicate HasCaptionPrefix(t: string) {
    StartsWith(t, CaptionHead) || StartsWith(t, ContinuationHead) || StartsWith(t, EndingHead)
  }

  /**
   * The scan for a table with no paragraph before it, from paragraph `k` (the table's own
   * ordinal) on: the first paragraph with text decides.
   */
  function CaptionFrom(ps: seq<Paragraph>, k: nat): bool
    decreases |ps| - k
  {
    if k >= |ps| then false
    else if HasCaptionPrefix(TextOf(ps[k])) then true
    else if TextOf(ps[k]) != "" then false
    else CaptionFrom(ps, k + 1)
  }

  /** A caption is found from `k` on exactly when blank paragraphs lead up to a paragraph with a caption prefix. */
  lemma {:induction false} CaptionFromFinds(ps: seq<Paragraph>, k: nat)
    ensures CaptionFrom(ps, k) <==>
      exists j :: k <= j < |ps| && HasCaptionPrefix(TextOf(ps[j])) && forall m :: k <= m < j ==> TextOf(ps[m]) == ""
    decreases |ps| - k
  {
    if k < |ps| && !HasCaptionPrefix(TextOf(ps[k])) && TextOf(ps[k]) == "" {
      CaptionFromFinds(ps, k + 1);
      if CaptionFrom(ps, k + 1) {
        var j :| k + 1 <= j < |ps| && HasCaptionPrefix(TextOf(ps[j])) && forall m :: k + 1 <= m < j ==> TextOf(ps[m]) == "";
        assert forall m :: k <= m < j ==> TextOf(ps[m]) == "";
      }
    }
  }

  /** Whether the table `tb`, the `k`-th of the document, has a caption above it. */
  predicate HasCaption(ps: seq<Paragraph>, tb: Table, k: nat) {
    match tb.before
    case Some(j) => j < |ps| && HasCaptionPrefix(TextOf(ps[j]))
    case None => CaptionFrom(ps, k)
  }

  /**
   * The paragraph right after the table is blank. The source looks only at paragraphs past
   * the table's ordinal, so a paragraph at or before it is never found.
   */
  predicate BlankAfter(ps: seq<Paragraph>, tb: Table, k: nat) {
    tb.after.Some? && k < tb.after.value < |ps| && TextOf(ps[tb.after.value]) == ""
  }

  /** What the `k`-th table is told: not centred, no caption above, a blank line after. */
  function TableMessages(ps: seq<Paragraph>, tb: Table, k: nat): seq<Msg> {
    When(!tb.centered, TableNotCentered) + When(!HasCaption(ps, tb, k), TableNoCaption) + When(BlankAfter(ps, tb, k), TableBlankAfter)
  }

  /** One issue per message, all about the `k`-th table. */
  function TableIssues(k: nat, msgs: seq<Msg>): (issues: seq<Issue>)
    ensures |issues| == |msgs|
    ensures forall j :: 0 <= j < |msgs| ==> issues[j] == Issue(msgs[j], TableElement, Some(k), Some(TableKind))
  {
    seq(|msgs|, j requires 0 <= j < |msgs| => Issue(msgs[j], TableElement, Some(k), Some(TableKind)))
  }

  function TablesIssuesUpTo(ps: seq<Paragraph>, tables: seq<Table>, n: nat): seq<Issue>
    requires n <= |tables|
  {
    if n == 0 then [] else TablesIssuesUpTo(ps, tables, n - 1) + TableIssues(n - 1, TableMessages(ps, tables[n - 1], n - 1))
  }

  /** The paragraphs from `k` on, up to the first that has text. */
  method ScanForCaption(ps: seq<Paragraph>, k: nat) returns (found: bool)
    ensures found == CaptionFrom(ps, k)
  {
    var i := k;
    while i < |ps|
      invariant k <= i && CaptionFrom(ps, i) == CaptionFrom(ps, k)
      decreases |ps| - i
    {
      var t := TextOf(ps[i]);
      if HasCaptionPrefix(t) {
        return true;
      } else if t != "" {
        return false;
      }
      i := i + 1;
    }
    return false;
  }

  /** The table loop. */
  method CheckTables(ps: seq<Paragraph>, tables: seq<Table>) returns (issues: seq<Issue>)
    ensures issues == TablesIssuesUpTo(ps, tables, |tables|)
  {
    issues := [];
    for k := 0 to |tables|
      invariant issues == TablesIssuesUpTo(ps, tables, k)
    {
      var msgs := CheckTable(ps, tables[k], k);
      issues := issues + TableIssues(k, msgs);
    }
  }

  /** The checks of the `k`-th table. */
  method CheckTable(ps: seq<Paragraph>, tb: Table, k: nat) returns (msgs: seq<Msg>)
    ensures msgs == TableMessages(ps, tb, k)
  {
    msgs := [];
    if !tb.centered {
      msgs := msgs + [TableNotCentered];
    }
    var found: bool;
    match tb.before {
      case Some(j) =>
        found := j < |ps| && HasCaptionPrefix(TextOf(ps[j]));
      case None =>
        found := ScanForCaption(ps, k);
    }
    if !found {
      msgs := msgs + [TableNoCaption];
    }
    if tb.after.Some? && k < tb.after.value < |ps| && TextOf(ps[tb.after.value]) == "" {
      msgs := msgs + [TableBlankAfter];
    }
  }

  // ---------------------------------------------------------------------------------
  // Continued tables with no ending.

  /** The last paragraph that wrote a mark is there whenever some number has one. */
  lemma {:induction false} MarkerExists(ls: seq<Line>, n: nat, r: string)
    requires n <= |ls| && LastMark(ls, n, r).Some?
    ensures MarkerBefore(ls, n).Some? && MarkerBefore(ls, n).value < n
  {
    if MarkAt(ls, n - 1).None? {
      MarkerExists(ls, n - 1, r);
    }
  }

  /** A number left continued by its last mark, and captioned somewhere in the document. */
  predicate LeftOpen(ls: seq<Line>, r: string) {
    LastMark(ls, |ls|, r) == Some(true) && r in CaptionsBefore(ls, |ls|)
  }

  /** The error for `r` if it is left open, reported at the last paragraph that wrote a mark. */
  function OpenIssue(ps: seq<Paragraph>, ls: seq<Line>, r: string): (issues: seq<Issue>)
    requires |ls| == |ps|
    ensures |issues| == (if LeftOpen(ls, r) then 1 else 0)
    ensures forall k :: 0 <= k < |issues| ==> issues[k].msg == TableOpenContinuation(r)
  {
    if LeftOpen(ls, r) then
      MarkerExists(ls, |ls|, r);
      var m := MarkerBefore(ls, |ls|).value;
      [Issue(TableOpenContinuation(r), ParagraphElement(ps[m].text), Some(m), Some(TableKind))]
    else []
  }

  /** The errors of the last loop over the numbers `rs`, in order. */
  function OpenIssues(ps: seq<Paragraph>, ls: seq<Line>, rs: seq<string>): seq<Issue>
    requires |ls| == |ps|
  {
    if rs == [] then [] else OpenIssues(ps, ls, rs[..|rs| - 1]) + OpenIssue(ps, ls, rs[|rs| - 1])
  }

  /** The last loop, over `continuation_tracker` in the order its numbers were first written. */
  method ReportOpen(ps: seq<Paragraph>, ghost ls: seq<Line>, t: Tracking) returns (issues: seq<Issue>)
    requires |ls| == |ps| && TrackingAgrees(ls, |ls|, t)
    ensures issues == OpenIssues(ps, ls, MarkOrder(ls, |ls|))
  {
    issues := [];
    for j := 0 to |t.order|
      invariant issues == OpenIssues(ps, ls, t.order[..j])
    {
      var r := t.order[j];
      assert t.order[..j + 1][..j] == t.order[..j];
      if t.tracker[r] && r in t.captions {
        MarkerExists(ls, |ls|, r);
        var m := t.marker.value;
        issues := issues + [Issue(TableOpenContinuation(r), ParagraphElement(ps[m].text), Some(m), Some(TableKind))];
      }
    }
    assert t.order[..|t.order|] == t.order;
  }

  // ---------------------------------------------------------------------------------
  // The whole pass.

  /** The errors of `check_table_formatting`: the paragraph loop's, each table's, then the continued tables'. */
  function TableFormattingIssues(doc: Doc): seq<Issue> {
    var ps := doc.paragraphs;
    var ls := Lines(ps);
    LineIssuesUpTo(ps, ls, |ps|) + TablesIssuesUpTo(ps, doc.tables, |doc.tables|) + OpenIssues(ps, ls, MarkOrder(ls, |ls|))
  }

  /** `check_table_formatting`: the errors, and the positions of the caption paragraphs. */
  method CheckTableFormatting(doc: Doc) returns (issues: seq<Issue>, captions: seq<nat>)
    ensures issues == TableFormattingIssues(doc)
    ensures captions == CaptionPositions(Lines(doc.paragraphs), |doc.paragraphs|)
  {
    var ps := doc.paragraphs;
    ghost var ls := Lines(ps);
    var lineIssues, t;
    lineIssues, captions, t := ScanLines(ps, ls);
    var tableIssues := CheckTables(ps, doc.tables);
    var open := ReportOpen(ps, ls, t);
    issues := lineIssues + tableIssues + open;
  }

  // ---------------------------------------------------------------------------------
  // What the pass promises.

  /** The paragraph loop records the captions and the reference lines, each once and in document order. */
  lemma {:induction false} CaptionPositionsAre(ls: seq<Line>, n: nat)
    requires n <= |ls|
    ensures forall i: nat :: i in CaptionPositions(ls, n) <==> i < n && IsCaptionLine(ls[i])
    ensures forall a, b :: 0 <= a < b < |CaptionPositions(ls, n)| ==> CaptionPositions(ls, n)[a] < CaptionPositions(ls, n)[b]
  {
    if n > 0 {
      CaptionPositionsAre(ls, n - 1);
      var prev := CaptionPositions(ls, n - 1);
      assert forall a :: 0 <= a < |prev| ==> prev[a] in prev;
    }
  }

  /** `table_captions` holds exactly the numbers of the well-formed captions before `n`. */
  lemma {:induction false} CaptionsBeforeAre(ls: seq<Line>, n: nat, r: string)
    requires n <= |ls|
    ensures r in CaptionsBefore(ls, n) <==> exists j :: 0 <= j < n && CaptionNumberAt(ls, j) == Some(r)
  {
    if n > 0 {
      CaptionsBeforeAre(ls, n - 1, r);
      if CaptionNumberAt(ls, n - 1) == Some(r) {
        assert CaptionNumberAt(ls, n - 1) == Some(r);
      }
    }
  }

  /** A continuation or ending line is reported as having no table exactly when no caption before it carries its number. */
  lemma OrphanReported(ls: seq<Line>, i: nat)
    requires i < |ls| && (ls[i].Continuation? || ls[i].Ending?)
    ensures (ContinuationOrphan(ls[i].ref) in ReferenceMessages(ls, i) || EndingOrphan(ls[i].ref) in ReferenceMessages(ls, i))
      <==> forall j :: 0 <= j < i ==> CaptionNumberAt(ls, j) != Some(ls[i].ref)
  {
    CaptionsBeforeAre(ls, i, ls[i].ref);
  }

  /** The numbers of the tracker were each written once, and they are exactly the numbers that have a mark. */
  lemma {:induction false} MarkOrderAre(ls: seq<Line>, n: nat)
    requires n <= |ls|
    ensures NoDuplicates(MarkOrder(ls, n))
    ensures forall r :: r in MarkOrder(ls, n) <==> LastMark(ls, n, r).Some?
  {
    if n > 0 {
      MarkOrderAre(ls, n - 1);
    }
  }

  /** The tracker holds for `r` what the last line that marked `r` wrote. */
  lemma {:induction false} LastMarkIs(ls: seq<Line>, n: nat, j: nat, r: string)
    requires j < n <= |ls| && MarkAt(ls, j).Some? && MarkAt(ls, j).value.0 == r
    requires forall k :: j < k < n ==> MarkAt(ls, k).None? || MarkAt(ls, k).value.0 != r
    ensures LastMark(ls, n, r) == Some(MarkAt(ls, j).value.1)
  {
    if j < n - 1 {
      LastMarkIs(ls, n - 1, j, r);
    }
  }

  /** Every error of the last loop over `rs` is about one of `rs` that is left open. */
  lemma {:induction false} OpenIssuesSound(ps: seq<Paragraph>, ls: seq<Line>, rs: seq<string>, k: nat)
    requires |ls| == |ps| && k < |OpenIssues(ps, ls, rs)|
    ensures OpenIssues(ps, ls, rs)[k].msg.TableOpenContinuation?
    ensures OpenIssues(ps, ls, rs)[k].msg.number in rs && LeftOpen(ls, OpenIssues(ps, ls, rs)[k].msg.number)
  {
    var init, last := rs[..|rs| - 1], rs[|rs| - 1];
    var before, own := OpenIssues(ps, ls, init), OpenIssue(ps, ls, last);
    assert OpenIssues(ps, ls, rs) == before + own;
    if k < |before| {
      assert (before + own)[k] == before[k];
      assert before[k].msg.TableOpenContinuation? && before[k].msg.number in init && LeftOpen(ls, before[k].msg.number) by {
        OpenIssuesSound(ps, ls, init, k);
      }
      assert before[k].msg.number in rs by {
        assert rs == init + [last];
      }
    } else {
      assert (before + own)[k] == own[k - |before|];
    }
  }

  /** Every one of `rs` that is left open gets an error from the last loop. */
  lemma {:induction false} OpenIssuesComplete(ps: seq<Paragraph>, ls: seq<Line>, rs: seq<string>, r: string)
    requires |ls| == |ps| && r in rs && LeftOpen(ls, r)
    ensures exists k :: 0 <= k < |OpenIssues(ps, ls, rs)| && OpenIssues(ps, ls, rs)[k].msg == TableOpenContinuation(r)
  {
    var init, last := rs[..|rs| - 1], rs[|rs| - 1];
    var before, own := OpenIssues(ps, ls, init), OpenIssue(ps, ls, last);
    assert OpenIssues(ps, ls, rs) == before + own;
    if r == last {
      MsgAfter(before, own, TableOpenContinuation(r));
    } else {
      assert r in init by {
        assert rs == init + [last];
      }
      OpenIssuesComplete(ps, ls, init, r);
      MsgBefore(before, own, TableOpenContinuation(r));
    }
  }

  lemma MsgBefore(before: seq<Issue>, own: seq<Issue>, x: Msg)
    requires exists k :: 0 <= k < |before| && before[k].msg == x
    ensures exists k :: 0 <= k < |before + own| && (before + own)[k].msg == x
  {
    var k :| 0 <= k < |before| && before[k].msg == x;
    assert (before + own)[k] == before[k];
  }

  lemma MsgAfter(before: seq<Issue>, own: seq<Issue>, x: Msg)
    requires |own| > 0 && own[0].msg == x
    ensures exists k :: 0 <= k < |before + own| && (before + own)[k].msg == x
  {
    assert (before + own)[|before|] == own[0];
  }

  /** A number is reported by the last loop over `rs` exactly when it is among them and left open. */
  lemma OpenIssuesHas(ps: seq<Paragraph>, ls: seq<Line>, rs: seq<string>, r: string)
    requires |ls| == |ps|
    ensures (exists k :: 0 <= k < |OpenIssues(ps, ls, rs)| && OpenIssues(ps, ls, rs)[k].msg == TableOpenContinuation(r))
      <==> r in rs && LeftOpen(ls, r)
  {
    if r in rs && LeftOpen(ls, r) {
      OpenIssuesComplete(ps, ls, rs, r);
    }
    if exists k :: 0 <= k < |OpenIssues(ps, ls, rs)| && OpenIssues(ps, ls, rs)[k].msg == TableOpenContinuation(r) {
      var k :| 0 <= k < |OpenIssues(ps, ls, rs)| && OpenIssues(ps, ls, rs)[k].msg == TableOpenContinuation(r);
      OpenIssuesSound(ps, ls, rs, k);
    }
  }

  /**
   * A table is reported as continued with no ending exactly when the last line that marked
   * its number was a continuation and some caption carries the number; and at most once.
   */
  lemma OpenReported(doc: Doc, r: string)
    ensures var ps := doc.paragraphs; var ls := Lines(ps);
      var open := OpenIssues(ps, ls, MarkOrder(ls, |ls|));
      (exists k :: 0 <= k < |open| && open[k].msg == TableOpenContinuation(r)) <==> LeftOpen(ls, r)
  {
    var ls := Lines(doc.paragraphs);
    MarkOrderAre(ls, |ls|);
    OpenIssuesHas(doc.paragraphs, ls, MarkOrder(ls, |ls|), r);
  }

  // ---------------------------------------------------------------------------------
  // The last loop as written.

  /** Some number of `continuation_tracker` is left open, so the last loop reaches its `add_error`. */
  predicate SomeLeftOpen(ls: seq<Line>) {
    exists r :: r in MarkOrder(ls, |ls|) && LeftOpen(ls, r)
  }

  /**
   * `check_table_formatting` as written. The index of the open-table error is looked up with
   * `doc.paragraphs.index(continuation_tracker['paragraph'])` in a fresh list of paragraph
   * objects, none of which equals the one the first loop remembered, so the first number
   * left open raises `ValueError` (`None` here); otherwise the pass returns what the
   * corrected one does.
   */
  function TableFormattingAsWritten(doc: Doc): Option<seq<Issue>> {
    if SomeLeftOpen(Lines(doc.paragraphs)) then None else Some(TableFormattingIssues(doc))
  }

  /** As written, the pass raises exactly when the corrected pass reports a table left open. */
  lemma AsWrittenRaisesOnOpen(doc: Doc)
    ensures var ps := doc.paragraphs; var ls := Lines(ps);
      TableFormattingAsWritten(doc).None? <==> OpenIssues(ps, ls, MarkOrder(ls, |ls|)) != []
  {
    var ps := doc.paragraphs;
    var ls := Lines(ps);
    var rs := MarkOrder(ls, |ls|);
    if SomeLeftOpen(ls) {
      var r :| r in rs && LeftOpen(ls, r);
      OpenIssuesHas(ps, ls, rs, r);
    }
    if OpenIssues(ps, ls, rs) != [] {
      OpenIssuesSound(ps, ls, rs, 0);
    }
  }

  /** A table left open is reported by the corrected pass, and makes the pass as written raise. */
  lemma OpenRaisesAsWritten(doc: Doc, r: string)
    requires LeftOpen(Lines(doc.paragraphs), r)
    ensures TableFormattingAsWritten(doc).None?
    ensures var issues := TableFormattingIssues(doc);
      exists k :: 0 <= k < |issues| && issues[k].msg == TableOpenContinuation(r)
  {
    var ps := doc.paragraphs;
    var ls := Lines(ps);
    var open := OpenIssues(ps, ls, MarkOrder(ls, |ls|));
    assert exists k :: 0 <= k < |open| && open[k].msg == TableOpenContinuation(r) by {
      OpenReported(doc, r);
    }
    var before := LineIssuesUpTo(ps, ls, |ps|) + TablesIssuesUpTo(ps, doc.tables, |doc.tables|);
    assert TableFormattingIssues(doc) == before + open;
    MsgLater(before, open, TableOpenContinuation(r));
    AsWrittenRaisesOnOpen(doc);
  }

  lemma MsgLater(before: seq<Issue>, own: seq<Issue>, x: Msg)
    requires exists k :: 0 <= k < |own| && own[k].msg == x
    ensures exists k :: 0 <= k < |before + own| && (before + own)[k].msg == x
  {
    var k :| 0 <= k < |own| && own[k].msg == x;
    assert (before + own)[|before| + k] == own[k];
  }

  /** An example: a caption `Таблица 1` and then `Продолжение таблицы 1`, with no ending, leave table 1 open. */
  lemma ContinuedNeverEnded()
    ensures var ls := [TableCaption(Some(MainNumber("1", [1])), None, false), Continuation("1", None, "Продолжение таблицы 1")];
      LeftOpen(ls, "1") && SomeLeftOpen(ls)
  {
    var ls := [TableCaption(Some(MainNumber("1", [1])), None, false), Continuation("1", None, "Продолжение таблицы 1")];
    assert AppendixBefore(ls, 0).None?;
    assert CaptionNumberAt(ls, 0) == Some("1");
    assert "1" in CaptionsBefore(ls, 2);
    assert LastMark(ls, 2, "1") == Some(true);
    assert MarkOrder(ls, 1) == ["1"];
    assert "1" in MarkOrder(ls, 2);
  }

  /** `last_caption_format` is the format of the last main-body caption before `n`, if there is one. */
  lemma {:induction false} LastFormatIs(ls: seq<Line>, n: nat, j: nat)
    requires j < n <= |ls| && MainAt(ls, j).Some?
    requires forall k :: j < k < n ==> MainAt(ls, k).None?
    ensures LastFormat(ls, n) == Some(FormatOf(MainAt(ls, j).value))
  {
    if j < n - 1 {
      LastFormatIs(ls, n - 1, j);
    }
  }

  lemma {:induction false} LastFormatNone(ls: seq<Line>, n: nat)
    requires n <= |ls|
    ensures LastFormat(ls, n).None? <==> forall k :: 0 <= k < n ==> MainAt(ls, k).None?
  {
    if n > 0 {
      LastFormatNone(ls, n - 1);
    }
  }

  /** The format message is the only one of its kind among the number checks. */
  lemma FormatChangeIn(m: MainNumber, headings: set<nat>, heading: Option<nat>, section: nat, last: Option<Format>, main: nat, b: bool)
    ensures TableFormatChange(b) in MainNumberMessages(m, headings, heading, section, last, main)
      <==> last == Some(if b then Sequential else Sectioned) && FormatOf(m) != last.value
  {
    if |m.parts| == 2 {
      assert TableFormatChange(b) !in SectionedMessages(m, headings, heading, section);
    }
  }

  /** A main-body caption is told of a format change exactly when the format of the last one differs. */
  lemma FormatChangeReported(ls: seq<Line>, i: nat, m: MainNumber, b: bool)
    requires i < |ls| && ls[i].TableCaption? && MainAt(ls, i) == Some(m)
    ensures TableFormatChange(b) in NumberMessages(ls, i) <==>
      LastFormat(ls, i) == Some(if b then Sequential else Sectioned) && FormatOf(m) != LastFormat(ls, i).value
  {
    FormatChangeIn(m, HeadingsBefore(ls, i), HeadingBefore(ls, i), SectionCount(ls, i), LastFormat(ls, i), MainCount(ls, i), b);
  }

  /** The `k`-th caption numbered X in the main body must carry the number `k`. */
  lemma {:induction false} MainSequenceReported(ls: seq<Line>, i: nat, m: MainNumber)
    requires i < |ls| && ls[i].TableCaption? && MainAt(ls, i) == Some(m) && |m.parts| == 1
    ensures (exists e, g :: TableMainSequence(e, g) in NumberMessages(ls, i)) <==> m.parts[0] != MainCount(ls, i) + 1
    ensures TableMainSequence(MainCount(ls, i) + 1, m.number) in NumberMessages(ls, i) <==> m.parts[0] != MainCount(ls, i) + 1
  {
    var told := m.parts[0] != MainCount(ls, i) + 1;
    var x := TableMainSequence(MainCount(ls, i) + 1, m.number);
    var fm := FormatMessages(m, LastFormat(ls, i));
    MainMessagesOfOne(ls, i, m);
    SequenceTold(fm, told, x);
  }

  /** A main-body caption with a one-part number is told of its format, then of its sequence. */
  lemma {:induction false} MainMessagesOfOne(ls: seq<Line>, i: nat, m: MainNumber)
    requires i < |ls| && ls[i].TableCaption? && MainAt(ls, i) == Some(m) && |m.parts| == 1
    ensures NumberMessages(ls, i)
            == FormatMessages(m, LastFormat(ls, i))
               + When(m.parts[0] != MainCount(ls, i) + 1, TableMainSequence(MainCount(ls, i) + 1, m.number))
  {
  }

  /** After messages that are no sequence message, a sequence message is there when it is told. */
  lemma SequenceTold(fm: seq<Msg>, told: bool, x: Msg)
    requires x.TableMainSequence? && forall k :: 0 <= k < |fm| ==> !fm[k].TableMainSequence?
    ensures (exists e, g :: TableMainSequence(e, g) in fm + When(told, x)) <==> told
    ensures x in fm + When(told, x) <==> told
  {
    var msgs := fm + When(told, x);
    if told {
      assert msgs[|fm|] == TableMainSequence(x.expected, x.got);
    } else {
      assert msgs == fm;
    }
  }

  /** Inside appendix `l`, the captions must run `l.1`, `l.2`, ... however often the appendix is resumed. */
  lemma AppendixSequenceReported(ls: seq<Line>, i: nat, l: string)
    requires i < |ls| && InAppendixCaption(ls, i, l)
    ensures var a := ls[i].appendix.value;
      TableAppendixSequence(l, AppendixCount(ls, i, l) + 1, a.number) in NumberMessages(ls, i)
      <==> a.ref.value.value != AppendixCount(ls, i, l) + 1
  {
  }

  /**
   * An example: after chapter 1 and its caption `1.1`, a caption numbered `1` is told
   * only that the format changed.
   */
  lemma FormatChangeExample()
    ensures var ls := [Heading(1), TableCaption(Some(MainNumber("1.1", [1, 1])), None, false),
                       TableCaption(Some(MainNumber("1", [1])), None, false)];
      NumberMessages(ls, 1) == [] && NumberMessages(ls, 2) == [TableFormatChange(false)]
  {
    var ls := [Heading(1), TableCaption(Some(MainNumber("1.1", [1, 1])), None, false),
               TableCaption(Some(MainNumber("1", [1])), None, false)];
    assert SectionLabel(1, 1) == "1.1" by {
      assert NatToString(1) == "1";
    }
    assert LastFormat(ls, 2) == Some(Sectioned);
  }

  /** An example: the first caption of appendix А numbered `А.2` is told that `А.1` was expected. */
  lemma AppendixSequenceExample()
    ensures var ls := [AppendixTitle(Some("А")), TableCaption(None, Some(AppendixNumber("А.2", Some(LetterNumber("А", 2)))), false)];
      NumberMessages(ls, 1) == [TableAppendixSequence("А", 1, "А.2")]
  {
    var ls := [AppendixTitle(Some("А")), TableCaption(None, Some(AppendixNumber("А.2", Some(LetterNumber("А", 2)))), false)];
    assert AppendixBefore(ls, 1) == Some("А");
    assert AppendixCount(ls, 1, "А") == 0;
  }
}
