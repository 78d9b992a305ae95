/**
 * The check of numbered headings (`check_headings_formatting`): a bold paragraph that
 * starts with a number of at most three levels is a heading; its number must follow the
 * previous heading's (`last_heading_numbers`), and it must be set apart by two blank
 * lines and formatted as a heading of its level.
 */
module Headings {
  import opened Wrappers
  import opened Text
  import opened Patterns
  import opened Document
  import opened Messages
  import opened Errors
  import opened ListTree
  import opened Lists

  /** `last_heading_numbers`: the numbers of the last heading of each open level. */
  type Tracker = map<int, seq<nat>>

  const InitialTracker: Tracker := map[1 := [0], 2 := [0, 0], 3 := [0, 0, 0]]

  function Zeros(n: nat): (z: seq<nat>)
    ensures |z| == n && forall k :: 0 <= k < n ==> z[k] == 0
  {
    seq(n, k => 0)
  }

  /** `last_heading_numbers.get(level, [0] * level)`, and `[0] * level` again when that is empty. */
  function LastParts(last: Tracker, level: nat): seq<nat> {
    if level in last && last[level] != [] then last[level] else Zeros(level)
  }

  /** `last_heading_numbers.get(parent_level, [])`. */
  function Get(last: Tracker, level: int): seq<nat> {
    if level in last then last[level] else []
  }

  /** `s[:n]`, which Python allows past the end. */
  function Take(s: seq<nat>, n: nat): seq<nat> {
    if n <= |s| then s[..n] else s
  }

  function Init(s: seq<nat>): seq<nat>
    requires s != []
  {
    s[..|s| - 1]
  }

  function Final(s: seq<nat>): nat
    requires s != []
  {
    s[|s| - 1]
  }

  /** The parent at `pl` disagrees with the heading's first `pl` numbers. */
  predicate ParentDiffers(last: Tracker, parts: seq<nat>, pl: nat)
    requires pl <= |parts|
  {
    pl < |parts| && Take(Get(last, pl), pl) != parts[..pl]
  }

  /** One message per parent level below `n` that disagrees. */
  function ParentMessages(last: Tracker, parts: seq<nat>, n: nat): seq<Msg>
    requires n <= |parts|
  {
    if n <= 1 then []
    else ParentMessages(last, parts, n - 1) + When(ParentDiffers(last, parts, n - 1), HeadingParent)
  }

  /** The numbering messages of a heading numbered `parts` after the headings `last` records. */
  function NumberingMessages(last: Tracker, parts: seq<nat>): seq<Msg>
    requires parts != []
  {
    var lp := LastParts(last, |parts|);
    var pm := ParentMessages(last, parts, |parts|);
    if pm != [] then pm
    else if Init(parts) == Init(lp) && Final(parts) != Final(lp) + 1 then [HeadingSequence(Init(lp) + [Final(lp) + 1])]
    else if Init(parts) != Init(lp) && Final(parts) != 1 then [HeadingStartAtOne(Init(parts) + [1])]
    else []
  }

  /** The tracker after recording a heading: its level holds its numbers and deeper levels are gone. */
  function Recorded(last: Tracker, parts: seq<nat>): Tracker {
    UpTo(last[|parts| := parts], |parts|)
  }

  // ---------------------------------------------------------------------------------
  // What the numbering rule says.

  /** Every parent level agrees with the heading. */
  predicate ParentsAgree(last: Tracker, parts: seq<nat>) {
    forall pl :: 1 <= pl < |parts| ==> !ParentDiffers(last, parts, pl)
  }

  /** The parent messages are one per disagreeing level, so none exactly when all agree. */
  lemma {:induction false} ParentMessagesNone(last: Tracker, parts: seq<nat>, n: nat)
    requires n <= |parts|
    ensures ParentMessages(last, parts, n) == [] <==> forall pl :: 1 <= pl < n ==> !ParentDiffers(last, parts, pl)
    ensures forall m :: m in ParentMessages(last, parts, n) ==> m == HeadingParent
  {
    if n > 1 {
      ParentMessagesNone(last, parts, n - 1);
    }
  }

  /** A heading whose parents agree is told nothing exactly when it continues its siblings or starts at 1. */
  lemma NumberingRule(last: Tracker, parts: seq<nat>)
    requires parts != []
    ensures NumberingMessages(last, parts) == [] <==>
      ParentsAgree(last, parts)
      && (var lp := LastParts(last, |parts|);
          if Init(parts) == Init(lp) then Final(parts) == Final(lp) + 1 else Final(parts) == 1)
  {
    ParentMessagesNone(last, parts, |parts|);
  }

  /** A heading whose parents agree but whose number skips is told the number expected. */
  lemma SiblingExpected(last: Tracker, parts: seq<nat>)
    requires parts != [] && ParentsAgree(last, parts)
    requires Init(parts) == Init(LastParts(last, |parts|))
    requires Final(parts) != Final(LastParts(last, |parts|)) + 1
    ensures NumberingMessages(last, parts) == [HeadingSequence(Init(parts) + [Final(LastParts(last, |parts|)) + 1])]
  {
    ParentMessagesNone(last, parts, |parts|);
  }

  /** Recording a heading of level `L` keeps the shallower levels, sets `L` and drops every deeper level. */
  lemma RecordedLevels(last: Tracker, parts: seq<nat>)
    ensures forall l :: l in Recorded(last, parts) <==> l == |parts| || (l in last && l < |parts|)
    ensures Recorded(last, parts)[|parts|] == parts
    ensures forall l :: l in last && l < |parts| ==> Recorded(last, parts)[l] == last[l]
  {
  }

  /** `1`, `1.1`, `1.3`: only the third heading is told, and `1.2` is expected. */
  lemma SkippedSubheading()
    ensures NumberingMessages(InitialTracker, [1]) == []
    ensures NumberingMessages(Recorded(InitialTracker, [1]), [1, 1]) == []
    ensures NumberingMessages(Recorded(Recorded(InitialTracker, [1]), [1, 1]), [1, 3]) == [HeadingSequence([1, 2])]
  {
    var t1 := Recorded(InitialTracker, [1]);
    assert t1 == map[1 := [1]];
    assert LastParts(t1, 2) == [0, 0];
    assert [1, 1][..1] == [1];
    assert ParentMessages(t1, [1, 1], 2) == [];
    var t2 := Recorded(t1, [1, 1]);
    assert t2 == map[1 := [1], 2 := [1, 1]];
    assert [1, 3][..1] == [1];
    assert !ParentDiffers(t2, [1, 3], 1);
    assert ParentMessages(t2, [1, 3], 2) == [];
    var lp := LastParts(t2, 2);
    assert lp == [1, 1];
    assert Init([1, 3]) == [1] == Init(lp);
    assert Init(lp) + [Final(lp) + 1] == [1, 2];
  }

  // ---------------------------------------------------------------------------------
  // The other checks of a heading.

  /** Where a split of `(?<=[.!?])\s+` falls: after a sentence mark, before whitespace. */
  function SentenceBreaks(s: string): nat {
    if |s| < 2 then 0
    else (if (s[0] == '.' || s[0] == '!' || s[0] == '?') && IsSpace(s[1]) then 1 else 0) + SentenceBreaks(s[1..])
  }

  const ClosingMarks: set<char> := {'.', '!', '?', ',', ';', ':', '-'}

  /** A title of one or two sentences must not end with a punctuation mark. */
  function PunctMessages(title: string): seq<Msg> {
    if title == [] then []
    else
      var n := 1 + SentenceBreaks(title);
      if n == 1 && Last(title) in ClosingMarks then [HeadingOneSentencePunct]
      else if n == 2 && Last(title) in ClosingMarks then [HeadingTwoSentencePunct]
      else []
  }

  /** The font size, in points, of a heading of `level`. */
  function ExpectedPoints(level: nat): nat {
    if level == 1 then 16 else 14
  }

  /** Some visible run has a size set. */
  predicate HasSizedRun(p: Paragraph) {
    exists k :: 0 <= k < |p.runs| && Visible(p.runs[k]) && HasSize(p.runs[k])
  }

  predicate HasSizedRunOf(p: Paragraph, halfPoints: nat) {
    exists k :: 0 <= k < |p.runs| && Visible(p.runs[k]) && HasSize(p.runs[k]) && p.runs[k].size.value == halfPoints
  }

  /** `is_heading`: bold, and either no size is set or one run has the size of the level. */
  predicate LooksLikeHeading(p: Paragraph, level: nat) {
    HasBold(p) && (!HasSizedRun(p) || HasSizedRunOf(p, 2 * ExpectedPoints(level)))
  }

  function HeadingRunMessages(r: Run, points: nat): seq<Msg> {
    When(!IsTrue(r.bold), HeadingBold)
    + When(HasSize(r) && r.size.value != 2 * points, HeadingSize(points))
    + When(IsTrue(r.italic), HeadingItalic)
    + When(IsTrue(r.underline), HeadingUnderline)
    + When(FontLacksTimes(r), HeadingFont)
  }

  /** A title that a line break or more than 65 characters make two lines long. */
  predicate TwoLines(p: Paragraph, t: string) {
    (exists k :: 0 <= k < |p.runs| && HasChar(p.runs[k].text, '\n')) || |t| > 65
  }

  /** Two blank paragraphs right before `i`, where `i - 1` and `i - 2` count from the end when negative. */
  predicate BlankBefore(ps: seq<Paragraph>, i: int) {
    BlankAt(ps, i - 1) && BlankAt(ps, i - 2)
  }

  predicate BlankAfter(ps: seq<Paragraph>, i: int) {
    i + 2 < |ps| && BlankAt(ps, i + 1) && BlankAt(ps, i + 2)
  }

  /** The checks after the numbering: the number's dot, the blank lines, the runs and the layout. */
  function FormatMessages(ps: seq<Paragraph>, i: nat, number: string, level: nat): seq<Msg>
    requires i < |ps|
  {
    When(EndsWith(number, "."), HeadingNumberDot)
    + When(!BlankBefore(ps, i), HeadingBlankBefore)
    + When(!BlankAfter(ps, i), HeadingBlankAfter)
    + StyleMessages(ps[i], level)
  }

  /** The runs' font and the paragraph's layout. */
  function StyleMessages(p: Paragraph, level: nat): seq<Msg> {
    HeadingRunsMessages(p, level) + HeadingLayoutMessages(p)
  }

  /** The font checks of every visible run, against the size of the level. */
  function HeadingRunsMessages(p: Paragraph, level: nat): seq<Msg> {
    RunMessages(p.runs, r => HeadingRunMessages(r, ExpectedPoints(level)))
  }

  /** The indents, spacing and alignment; the line spacing expected depends on the title's length. */
  function HeadingLayoutMessages(p: Paragraph): seq<Msg> {
    var two := TwoLines(p, TextOf(p));
    When(IndentNot049in(p), HeadingFirstIndent)
    + SideIndentMessages(p, HeadingWho)
    + When(SpacingSet(p), HeadingSpacing)
    + When(SpacingAway(p, if two then 240 else 360), HeadingLineSpacing(two))
    + When(p.alignment != AlignJustify, HeadingAlignment)
  }

  /** A heading is told of its blank lines exactly when they are missing. */
  lemma BlankLinesReported(ps: seq<Paragraph>, i: nat, number: string, level: nat)
    requires i < |ps|
    ensures HeadingBlankBefore in FormatMessages(ps, i, number, level) <==> !BlankBefore(ps, i)
    ensures HeadingBlankAfter in FormatMessages(ps, i, number, level) <==> !BlankAfter(ps, i)
  {
    StyleNotBlank(ps[i], level);
  }

  lemma StyleNotBlank(p: Paragraph, level: nat)
    ensures HeadingBlankBefore !in StyleMessages(p, level) && HeadingBlankAfter !in StyleMessages(p, level)
  {
    var runs := HeadingRunsMessages(p, level);
    var layout := HeadingLayoutMessages(p);
    assert HeadingBlankBefore !in runs && HeadingBlankAfter !in runs by {
      RunsNotBlank(p, level);
    }
    assert HeadingBlankBefore !in layout && HeadingBlankAfter !in layout by {
      LayoutNotBlank(p);
    }
    assert StyleMessages(p, level) == runs + layout;
  }

  lemma LayoutNotBlank(p: Paragraph)
    ensures HeadingBlankBefore !in HeadingLayoutMessages(p) && HeadingBlankAfter !in HeadingLayoutMessages(p)
  {
    var two := TwoLines(p, TextOf(p));
    var side := SideIndentMessages(p, HeadingWho);
    var first, spacing, line, align := IndentNot049in(p), SpacingSet(p), SpacingAway(p, if two then 240 else 360), p.alignment != AlignJustify;
    assert HeadingLayoutMessages(p)
      == When(first, HeadingFirstIndent) + side + When(spacing, HeadingSpacing) + When(line, HeadingLineSpacing(two)) + When(align, HeadingAlignment);
    LayoutLacks(first, side, spacing, line, two, align);
  }

  lemma LayoutLacks(first: bool, side: seq<Msg>, spacing: bool, line: bool, two: bool, align: bool)
    requires HeadingBlankBefore !in side && HeadingBlankAfter !in side
    ensures var msgs := When(first, HeadingFirstIndent) + side + When(spacing, HeadingSpacing)
                        + When(line, HeadingLineSpacing(two)) + When(align, HeadingAlignment);
      HeadingBlankBefore !in msgs && HeadingBlankAfter !in msgs
  {
  }

  lemma RunsNotBlank(p: Paragraph, level: nat)
    ensures HeadingBlankBefore !in HeadingRunsMessages(p, level) && HeadingBlankAfter !in HeadingRunsMessages(p, level)
  {
    var check := r => HeadingRunMessages(r, ExpectedPoints(level));
    assert forall r :: HeadingBlankBefore !in check(r) && HeadingBlankAfter !in check(r);
    RunMessagesHas(p.runs, check, HeadingBlankBefore);
    RunMessagesHas(p.runs, check, HeadingBlankAfter);
  }

  /** The number a heading match yields never ends with a dot: the check of the dot never fires. */
  lemma NumberNeverEndsWithDot(t: string)
    requires HeadingMatch(t).Some?
    ensures !EndsWith(HeadingMatch(t).value.number, ".")
  {
    var n := NumberToken(t);
    assert HeadingMatch(t).value.number == t[..n];
  }

  // ---------------------------------------------------------------------------------
  // One paragraph.

  /** What the pass makes of one paragraph: messages, heading or list candidate, and the new tracker. */
  datatype HeadingVerdict = HeadingVerdict(msgs: seq<Msg>, heading: bool, candidate: bool, last: Tracker)

  /** The loop body of `check_headings_formatting` for the paragraph at `i`. */
  function JudgeHeading(ps: seq<Paragraph>, excluded: set<nat>, last: Tracker, i: nat): HeadingVerdict
    requires i < |ps|
  {
    var p := ps[i];
    var t := TextOf(p);
    if t == "" || i in excluded then HeadingVerdict([], false, true, last)
    else
      var ds := When(HasDoubleSpace(t), DoubleSpaces);
      if CaptionOrTitle(t) then HeadingVerdict(ds, false, true, last)
      else if !HasBold(p) then HeadingVerdict(ds + When(IsTextualList(p, i, excluded), TextualList), false, true, last)
      else match HeadingMatch(t)
        case None => HeadingVerdict(ds, false, true, last)
        case Some(m) => JudgeNumbered(ps, last, i, ds, m)
  }

  /** A bold paragraph that starts with a number. */
  function JudgeNumbered(ps: seq<Paragraph>, last: Tracker, i: nat, ds: seq<Msg>, m: NumberedTitle): HeadingVerdict
    requires i < |ps| && |m.number| > 0 && TokenChars(m.number)
  {
    var p := ps[i];
    var parts := NumberParts(m.number);
    if |parts| > 3 then HeadingVerdict(ds + [HeadingTooDeep(m.number)], false, true, last)
    else
      var title := Strip(m.title);
      var pre := ds + When(WideGapAfterNumber(TextOf(p)), HeadingGap)
                 + When(title != [] && !IsUpper(title[0]), HeadingCapital);
      var punct := PunctMessages(title);
      if !LooksLikeHeading(p, |parts|) || punct != [] then
        HeadingVerdict(pre + punct + [HeadingMismatch], false, p.numbering.None?, last)
      else
        HeadingVerdict(pre + NumberingMessages(last, parts) + FormatMessages(ps, i, m.number, |parts|),
                       true, false, Recorded(last, parts))
  }

  /** A number of more than three levels is told so, routed to the lists and leaves the tracker alone. */
  lemma TooDeepNotRecorded(ps: seq<Paragraph>, last: Tracker, i: nat, ds: seq<Msg>, m: NumberedTitle)
    requires i < |ps| && |m.number| > 0 && TokenChars(m.number)
    requires CountChar(m.number, '.') >= 3
    ensures JudgeNumbered(ps, last, i, ds, m) == HeadingVerdict(ds + [HeadingTooDeep(m.number)], false, true, last)
  {
  }

  /** Only a heading that passes its format test moves the tracker. */
  lemma OnlyHeadingsRecorded(ps: seq<Paragraph>, excluded: set<nat>, last: Tracker, i: nat)
    requires i < |ps|
    ensures !JudgeHeading(ps, excluded, last, i).heading ==> JudgeHeading(ps, excluded, last, i).last == last
    ensures JudgeHeading(ps, excluded, last, i).heading ==> !JudgeHeading(ps, excluded, last, i).candidate
  {
    var p := ps[i];
    var t := TextOf(p);
    if !(t == "" || i in excluded) && !CaptionOrTitle(t) && HasBold(p) && HeadingMatch(t).Some? {
      var m := HeadingMatch(t).value;
      var ds := When(HasDoubleSpace(t), DoubleSpaces);
      assert JudgeHeading(ps, excluded, last, i) == JudgeNumbered(ps, last, i, ds, m);
      NumberedRecords(ps, last, i, ds, m);
    }
  }

  /** A numbered bold paragraph moves the tracker only when it is taken as a heading. */
  lemma NumberedRecords(ps: seq<Paragraph>, last: Tracker, i: nat, ds: seq<Msg>, m: NumberedTitle)
    requires i < |ps| && |m.number| > 0 && TokenChars(m.number)
    ensures var v := JudgeNumbered(ps, last, i, ds, m);
      (!v.heading ==> v.last == last) && (v.heading ==> !v.candidate)
  {
  }

  // ---------------------------------------------------------------------------------
  // The pass.

  type Judge = (Tracker, nat) -> HeadingVerdict

  function JudgeOf(ps: seq<Paragraph>, excluded: set<nat>): Judge {
    (last: Tracker, i: nat) =>
      if i < |ps| then JudgeHeading(ps, excluded, last, i) else HeadingVerdict([], false, false, last)
  }

  /** The issues so far, the headings, the list candidates and the tracker. */
  datatype Headed = Headed(issues: seq<Issue>, headings: seq<nat>, candidates: seq<nat>, last: Tracker)

  function HeadingsUpTo(ps: seq<Paragraph>, judge: Judge, n: nat): Headed
    requires n <= |ps|
  {
    if n == 0 then Headed([], [], [], InitialTracker)
    else
      var h := HeadingsUpTo(ps, judge, n - 1);
      var v := judge(h.last, n - 1);
      Headed(h.issues + ParagraphIssues(ps[n - 1].text, n - 1, v.msgs),
             if v.heading then h.headings + [n - 1] else h.headings,
             if v.candidate then h.candidates + [n - 1] else h.candidates,
             v.last)
  }

  /** The headings and the candidates are increasing positions of the document. */
  lemma {:induction false} HeadingsOrdered(ps: seq<Paragraph>, judge: Judge, n: nat)
    requires n <= |ps|
    ensures forall k :: 0 <= k < |HeadingsUpTo(ps, judge, n).headings| ==> HeadingsUpTo(ps, judge, n).headings[k] < n
    ensures forall k :: 0 < k < |HeadingsUpTo(ps, judge, n).headings| ==>
      HeadingsUpTo(ps, judge, n).headings[k - 1] < HeadingsUpTo(ps, judge, n).headings[k]
    ensures forall k :: 0 <= k < |HeadingsUpTo(ps, judge, n).candidates| ==> HeadingsUpTo(ps, judge, n).candidates[k] < n
  {
    if n > 0 {
      HeadingsOrdered(ps, judge, n - 1);
    }
  }

  /** The parent loop: one message per disagreeing parent level. */
  method CheckParents(last: Tracker, parts: seq<nat>) returns (msgs: seq<Msg>)
    ensures msgs == ParentMessages(last, parts, |parts|)
  {
    msgs := [];
    if |parts| <= 1 {
      return;
    }
    for pl := 1 to |parts|
      invariant msgs == ParentMessages(last, parts, pl)
    {
      var parentParts := if pl in last then last[pl] else [];
      if pl < |parts| && Take(parentParts, pl) != parts[..pl] {
        msgs := msgs + [HeadingParent];
      }
    }
  }

  /** The numbering check of one heading, with its parent loop. */
  method CheckNumbering(last: Tracker, parts: seq<nat>) returns (msgs: seq<Msg>)
    requires parts != []
    ensures msgs == NumberingMessages(last, parts)
  {
    var lp := LastParts(last, |parts|);
    msgs := CheckParents(last, parts);
    if msgs == [] {
      if Init(parts) == Init(lp) && Final(parts) != Final(lp) + 1 {
        msgs := [HeadingSequence(Init(lp) + [Final(lp) + 1])];
      } else if Init(parts) != Init(lp) && Final(parts) != 1 {
        msgs := [HeadingStartAtOne(Init(parts) + [1])];
      }
    }
  }

  /** One paragraph of the loop, with the numbering check done by its own loop. */
  method ReadParagraph(ps: seq<Paragraph>, excluded: set<nat>, last: Tracker, i: nat) returns (v: HeadingVerdict)
    requires i < |ps|
    ensures v == JudgeOf(ps, excluded)(last, i)
  {
    var p := ps[i];
    var t := TextOf(p);
    if t == "" || i in excluded {
      return HeadingVerdict([], false, true, last);
    }
    var ds := When(HasDoubleSpace(t), DoubleSpaces);
    if CaptionOrTitle(t) {
      return HeadingVerdict(ds, false, true, last);
    }
    if !HasBold(p) {
      return HeadingVerdict(ds + When(IsTextualList(p, i, excluded), TextualList), false, true, last);
    }
    var hm := HeadingMatch(t);
    if hm.None? {
      return HeadingVerdict(ds, false, true, last);
    }
    v := ReadNumbered(ps, last, i, ds, hm.value);
  }

  method ReadNumbered(ps: seq<Paragraph>, last: Tracker, i: nat, ds: seq<Msg>, m: NumberedTitle) returns (v: HeadingVerdict)
    requires i < |ps| && |m.number| > 0 && TokenChars(m.number)
    ensures v == JudgeNumbered(ps, last, i, ds, m)
  {
    var p := ps[i];
    var parts := NumberParts(m.number);
    if |parts| > 3 {
      return HeadingVerdict(ds + [HeadingTooDeep(m.number)], false, true, last);
    }
    var title := Strip(m.title);
    var pre := ds + When(WideGapAfterNumber(TextOf(p)), HeadingGap)
               + When(title != [] && !IsUpper(title[0]), HeadingCapital);
    var punct := PunctMessages(title);
    if !LooksLikeHeading(p, |parts|) || punct != [] {
      return HeadingVerdict(pre + punct + [HeadingMismatch], false, p.numbering.None?, last);
    }
    var numbering := CheckNumbering(last, parts);
    v := HeadingVerdict(pre + numbering + FormatMessages(ps, i, m.number, |parts|), true, false, Recorded(last, parts));
  }

  /** One paragraph more: its issues are appended, and it joins the headings or the candidates as its verdict says. */
  lemma HeadingsStep(ps: seq<Paragraph>, judge: Judge, n: nat, v: HeadingVerdict)
    requires n < |ps| && v == judge(HeadingsUpTo(ps, judge, n).last, n)
    ensures var h := HeadingsUpTo(ps, judge, n);
      HeadingsUpTo(ps, judge, n + 1) == Headed(h.issues + ParagraphIssues(ps[n].text, n, v.msgs),
        if v.heading then h.headings + [n] else h.headings,
        if v.candidate then h.candidates + [n] else h.candidates,
        v.last)
  {
  }

  /** `check_headings_formatting`: the issues, the headings and the list candidates, in document order. */
  method CheckHeadingsFormatting(ps: seq<Paragraph>, excluded: set<nat>) returns (issues: seq<Issue>, headings: seq<nat>, candidates: seq<nat>)
    ensures var h := HeadingsUpTo(ps, JudgeOf(ps, excluded), |ps|);
      issues == h.issues && headings == h.headings && candidates == h.candidates
  {
    issues, headings, candidates := [], [], [];
    var last := InitialTracker;
    ghost var judge := JudgeOf(ps, excluded);
    for i := 0 to |ps|
      invariant Headed(issues, headings, candidates, last) == HeadingsUpTo(ps, judge, i)
    {
      var v := ReadParagraph(ps, excluded, last, i);
      HeadingsStep(ps, judge, i, v);
      issues := issues + ParagraphIssues(ps[i].text, i, v.msgs);
      if v.heading {
        headings := headings + [i];
      }
      if v.candidate {
        candidates := candidates + [i];
      }
      last := v.last;
    }
  }
}
