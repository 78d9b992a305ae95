/**
 * The structural elements (`check_structural_elements`): the required titles
 * ("Введение", "Заключение", "Перечень использованных информационных ресурсов"), the
 * appendix titles with their letters, the listing captions and the code paragraphs. The
 * pass yields the errors, the positions of the titles and appendices, the listings with
 * their own errors, and the positions of the code paragraphs.
 */
module Structure {
  import opened Wrappers
  import opened Text
  import opened Document
  import opened Messages
  import opened Errors
  import opened Patterns

  /** The letters an appendix may carry: the capitals without Ё, З, Й, О, Ч, Ъ, Ы and Ь. */
  const AppendixLetters: seq<char> := [
    'А', 'Б', 'В', 'Г', 'Д', 'Е', 'Ж', 'И', 'К', 'Л', 'М',
    'Н', 'П', 'Р', 'С', 'Т', 'У', 'Ф', 'Х', 'Ц', 'Ш', 'Щ', 'Э', 'Ю', 'Я'
  ]

  lemma AlphabetShape()
    ensures |AppendixLetters| == 25
    ensures forall c :: c in "ЁЗЙОЧЪЫЬ" ==> c !in AppendixLetters
    ensures forall c :: c in AppendixLetters ==> IsRuUpper(c)
  {
  }

  /** How the pass sorts a paragraph by its stripped text, testing in the source's order. */
  datatype Kind = Empty | StructTitle | AppendixTitle | ListingCaption | Body

  function KindOf(t: string): Kind {
    if t == "" then Empty
    else if t in Titles then StructTitle
    else if StartsWith(t, "Приложение") then AppendixTitle
    else if StartsWith(t, "Листинг") then ListingCaption
    else Body
  }

  /** `text[len("Приложение "):].strip()`: whatever follows the word and one more character. */
  function AppendixLetter(t: string): string {
    if |t| >= 11 then Strip(t[11..]) else ""
  }

  predicate LetterOk(l: string) {
    |l| == 1 && l[0] in AppendixLetters
  }

  /** A bad letter, or a good one already used; nothing otherwise. */
  function LetterMessages(l: string, letters: set<string>): seq<Msg> {
    if !LetterOk(l) then [AppendixLetterBad(l)]
    else if l in letters then [AppendixLetterRepeat(l)]
    else []
  }

  /** Only acceptable letters are remembered. */
  function NextLetters(l: string, letters: set<string>): set<string> {
    if LetterOk(l) then letters + {l} else letters
  }

  function TitleRunMessages(who: Who, r: Run): seq<Msg> {
    When(r.font != Some(TimesNewRoman), TitleFont(who))
    + When(r.size != Some(32), TitleSize(who))
    + When(!IsTrue(r.bold), TitleBold(who))
  }

  /** A title and an appendix title share their checks: 16 pt bold Times New Roman, centred, no indents or spacing. */
  function TitleMessages(p: Paragraph, who: Who): seq<Msg> {
    RunMessages(p.runs, r => TitleRunMessages(who, r))
    + When(p.alignment != AlignCenter, TitleAlignment(who))
    + When(FirstIndentSet(p), TitleFirstIndent(who))
    + SideIndentMessages(p, who)
    + When(SpacingSet(p), TitleSpacing(who))
  }

  /** The caption's shape, then the capital of its name. */
  function ListingShapeMessages(t: string): seq<Msg> {
    match ListingMatch(t)
    case None => [ListingShape]
    case Some(name) => When(!IsUpper(name[0]), ListingCapital)
  }

  function ListingRunMessages(r: Run): seq<Msg> {
    When(r.font != Some(TimesNewRoman), ListingFont)
    + When(r.size != Some(28), ListingSize)
    + When(IsTrue(r.bold) || IsTrue(r.italic), ListingEmphasis)
  }

  /** The listing caption must be justified, although its message speaks of centring. */
  function ListingMessages(p: Paragraph, t: string): seq<Msg> {
    ListingShapeMessages(t)
    + RunMessages(p.runs, ListingRunMessages)
    + When(p.alignment != AlignJustify, ListingAlignment)
    + When(FirstIndentSet(p), ListingFirstIndent)
    + SideIndentMessages(p, ListingWho)
    + When(SpacingSet(p), ListingSpacing)
  }

  function CodeRunMessages(r: Run): seq<Msg> {
    When(r.size != Some(24), CodeSize)
    + When(IsTrue(r.bold) || IsTrue(r.italic) || IsTrue(r.underline), CodeEmphasis)
  }

  function CodeLayoutMessages(p: Paragraph): seq<Msg> {
    When(FirstIndentSet(p), CodeFirstIndent)
    + SideIndentMessages(p, CodeWho)
    + When(SpacingSet(p), CodeSpacing)
  }

  /** The code right after a listing caption: the alignment is not checked there. */
  function AfterListingMessages(p: Paragraph): seq<Msg> {
    RunMessages(p.runs, CodeRunMessages) + CodeLayoutMessages(p)
  }

  /** Any other code paragraph must also be left-aligned or inherit its alignment. */
  function CodeMessages(p: Paragraph): seq<Msg> {
    RunMessages(p.runs, CodeRunMessages)
    + When(p.alignment != AlignLeft && p.alignment != Inherited, CodeAlignment)
    + CodeLayoutMessages(p)
  }

  /** `listing_info`: the caption's position and its errors, reported after all the others. */
  datatype Listing = Listing(index: nat, issues: seq<Issue>)

  // ---------------------------------------------------------------------------------
  // One paragraph `ps[i]` whose stripped text is `t`: each output of the loop body on its own.

  /** The stripped text of every paragraph, which is all the pass sorts the paragraphs by. */
  function Texts(ps: seq<Paragraph>): (ts: seq<string>)
    ensures |ts| == |ps|
  {
    seq(|ps|, i requires 0 <= i < |ps| => TextOf(ps[i]))
  }

  /** The errors reported at once: a title's, an appendix title's, or the code's. */
  function StructIssues(ps: seq<Paragraph>, t: string, letters: set<string>, i: nat): seq<Issue>
    requires i < |ps|
  {
    var p := ps[i];
    match KindOf(t)
    case Empty => []
    case StructTitle => ParagraphIssues(p.text, i, TitleMessages(p, StructureWho))
    case AppendixTitle =>
      ParagraphIssues(p.text, i, LetterMessages(AppendixLetter(t), letters) + TitleMessages(p, AppendixWho))
    case ListingCaption =>
      if i + 1 < |ps| && IsCode(ps[i + 1])
      then ParagraphIssues(ps[i + 1].text, i + 1, AfterListingMessages(ps[i + 1]))
      else []
    case Body => if IsCode(p) then ParagraphIssues(p.text, i, CodeMessages(p)) else []
  }

  /** `structural_paragraphs` takes the titles and the appendix titles. */
  predicate IsStructural(t: string) {
    KindOf(t) == StructTitle || KindOf(t) == AppendixTitle
  }

  /** A listing caption, with its own errors. */
  function ListingOf(ps: seq<Paragraph>, t: string, i: nat): seq<Listing>
    requires i < |ps|
  {
    if KindOf(t) == ListingCaption then [Listing(i, ParagraphIssues(ps[i].text, i, ListingMessages(ps[i], t)))]
    else []
  }

  /** The code recorded: the paragraph after a listing caption, or the paragraph itself. */
  function CodeOf(ps: seq<Paragraph>, t: string, i: nat): seq<nat>
    requires i < |ps|
  {
    match KindOf(t)
    case ListingCaption => if i + 1 < |ps| && IsCode(ps[i + 1]) then [i + 1] else []
    case Body => if IsCode(ps[i]) then [i] else []
    case _ => []
  }

  /** The letters used, with an appendix title's acceptable letter added. */
  function LettersAfter(t: string, letters: set<string>): set<string> {
    if KindOf(t) == AppendixTitle then NextLetters(AppendixLetter(t), letters) else letters
  }

  // ---------------------------------------------------------------------------------
  // The first `n` paragraphs, given their stripped texts `ts`.

  /** `appendix_letters` after `n` paragraphs. */
  function LettersUpTo(ts: seq<string>, n: nat): set<string>
    requires n <= |ts|
  {
    if n == 0 then {} else LettersAfter(ts[n - 1], LettersUpTo(ts, n - 1))
  }

  function IssuesUpTo(ps: seq<Paragraph>, ts: seq<string>, n: nat): seq<Issue>
    requires |ts| == |ps| && n <= |ps|
  {
    if n == 0 then [] else IssuesUpTo(ps, ts, n - 1) + StructIssues(ps, ts[n - 1], LettersUpTo(ts, n - 1), n - 1)
  }

  function StructuralUpTo(ts: seq<string>, n: nat): seq<nat>
    requires n <= |ts|
  {
    if n == 0 then [] else StructuralUpTo(ts, n - 1) + (if IsStructural(ts[n - 1]) then [n - 1] else [])
  }

  function ListingsUpTo(ps: seq<Paragraph>, ts: seq<string>, n: nat): seq<Listing>
    requires |ts| == |ps| && n <= |ps|
  {
    if n == 0 then [] else ListingsUpTo(ps, ts, n - 1) + ListingOf(ps, ts[n - 1], n - 1)
  }

  function CodeUpTo(ps: seq<Paragraph>, ts: seq<string>, n: nat): seq<nat>
    requires |ts| == |ps| && n <= |ps|
  {
    if n == 0 then [] else CodeUpTo(ps, ts, n - 1) + CodeOf(ps, ts[n - 1], n - 1)
  }

  // ---------------------------------------------------------------------------------
  // The appendix letters.

  /** The letter of an earlier appendix title. */
  predicate UsedBefore(ts: seq<string>, n: nat, l: string) {
    exists j :: 0 <= j < n && j < |ts| && KindOf(ts[j]) == AppendixTitle && AppendixLetter(ts[j]) == l
  }

  /** The letters remembered after `n` paragraphs are the acceptable letters of the appendices among them. */
  lemma {:induction false} LettersUsed(ts: seq<string>, n: nat)
    requires n <= |ts|
    ensures forall l :: l in LettersUpTo(ts, n) <==> LetterOk(l) && UsedBefore(ts, n, l)
  {
    if n > 0 {
      LettersUsed(ts, n - 1);
      forall l
        ensures l in LettersUpTo(ts, n) <==> LetterOk(l) && UsedBefore(ts, n, l)
      {
        if UsedBefore(ts, n, l) && !UsedBefore(ts, n - 1, l) {
          var j :| 0 <= j < n && j < |ts| && KindOf(ts[j]) == AppendixTitle && AppendixLetter(ts[j]) == l;
          assert j == n - 1;
        }
        if KindOf(ts[n - 1]) == AppendixTitle && AppendixLetter(ts[n - 1]) == l {
          assert UsedBefore(ts, n, l);
        }
      }
    }
  }

  /**
   * An appendix title is told its letter is wrong exactly when it is not one acceptable
   * letter, and that it repeats exactly when an earlier appendix title already used it.
   */
  lemma RepeatedLetterReported(ts: seq<string>, i: nat)
    requires i < |ts| && KindOf(ts[i]) == AppendixTitle
    ensures var l := AppendixLetter(ts[i]);
      var msgs := LetterMessages(l, LettersUpTo(ts, i));
      (AppendixLetterBad(l) in msgs <==> !LetterOk(l))
      && (AppendixLetterRepeat(l) in msgs <==> LetterOk(l) && UsedBefore(ts, i, l))
  {
    LettersUsed(ts, i);
  }

  /** "Приложение А" carries the letter А; "ПриложениеА" carries none. */
  lemma AppendixLetterExamples()
    ensures AppendixLetter("Приложение А") == "А" && LetterOk("А")
    ensures AppendixLetter("ПриложениеА") == "" && !LetterOk("")
    ensures !LetterOk("Ё") && !LetterOk("АБ")
  {
    assert "Приложение А"[11..] == "А";
    assert 'Ё' !in AppendixLetters;
  }

  // ---------------------------------------------------------------------------------
  // Titles and code.

  /** `structural_paragraphs` holds exactly the titles and the appendix titles, in order. */
  lemma {:induction false} StructuralAre(ts: seq<string>, n: nat)
    requires n <= |ts|
    ensures forall j: nat :: j in StructuralUpTo(ts, n) <==> j < n && IsStructural(ts[j])
    ensures forall a :: 0 <= a < |StructuralUpTo(ts, n)| ==> StructuralUpTo(ts, n)[a] < n
    ensures forall a, b :: 0 <= a < b < |StructuralUpTo(ts, n)| ==> StructuralUpTo(ts, n)[a] < StructuralUpTo(ts, n)[b]
  {
    if n > 0 {
      StructuralAre(ts, n - 1);
    }
  }

  /**
   * A code paragraph right after a listing caption is checked twice, once with the caption
   * and once on its own, and is recorded as code twice.
   */
  lemma CodeAfterListingTwice(ps: seq<Paragraph>, ts: seq<string>, i: nat)
    requires |ts| == |ps| && i + 1 < |ps|
    requires KindOf(ts[i]) == ListingCaption
    requires KindOf(ts[i + 1]) == Body && IsCode(ps[i + 1])
    ensures CodeUpTo(ps, ts, i + 2) == CodeUpTo(ps, ts, i) + [i + 1, i + 1]
  {
  }

  /** The only positions a paragraph can record as code. */
  lemma CodeOfPositions(ps: seq<Paragraph>, t: string, i: nat, j: nat)
    requires i < |ps| && j in CodeOf(ps, t, i)
    ensures (j == i && KindOf(t) == Body) || (j == i + 1 && KindOf(t) == ListingCaption)
  {
  }

  /**
   * Titles and appendix titles are never taken for code, whatever their font, unless they
   * follow a listing caption.
   */
  lemma {:induction false} TitlesNotCode(ps: seq<Paragraph>, ts: seq<string>, n: nat, j: nat)
    requires |ts| == |ps| && n <= |ps|
    requires j < |ts| && IsStructural(ts[j])
    requires j == 0 || KindOf(ts[j - 1]) != ListingCaption
    ensures j !in CodeUpTo(ps, ts, n)
  {
    if n > 0 {
      TitlesNotCode(ps, ts, n - 1, j);
      if j in CodeOf(ps, ts[n - 1], n - 1) {
        CodeOfPositions(ps, ts[n - 1], n - 1, j);
      }
    }
  }

  // ---------------------------------------------------------------------------------
  // The required titles.

  predicate Present(ts: seq<string>, n: nat, t: string) {
    exists k :: 0 <= k < n && k < |ts| && ts[k] == t
  }

  function MissingIssue(t: string): Issue {
    Issue(MissingTitle(t), LabelElement(t), Some(0), Some(ParagraphKind))
  }

  /** One error, at position 0, for each of the first `n` required titles no paragraph carries. */
  function MissingIssues(ts: seq<string>, n: nat): seq<Issue>
    requires n <= |Titles|
  {
    if n == 0 then []
    else MissingIssues(ts, n - 1) + (if Present(ts, |ts|, Titles[n - 1]) then [] else [MissingIssue(Titles[n - 1])])
  }

  /** A title is reported missing exactly when it is required and no paragraph's stripped text is that title. */
  lemma {:induction false} MissingReported(ts: seq<string>, n: nat, t: string)
    requires n <= |Titles|
    ensures MissingIssue(t) in MissingIssues(ts, n) <==> t in Titles[..n] && !Present(ts, |ts|, t)
  {
    if n > 0 {
      MissingReported(ts, n - 1, t);
      assert Titles[..n] == Titles[..n - 1] + [Titles[n - 1]];
    }
  }

  /** At most one error per required title, each at position 0. */
  lemma {:induction false} MissingAtStart(ts: seq<string>, n: nat)
    requires n <= |Titles|
    ensures |MissingIssues(ts, n)| <= n
    ensures forall k :: 0 <= k < |MissingIssues(ts, n)| ==> MissingIssues(ts, n)[k].index == Some(0)
  {
    if n > 0 {
      MissingAtStart(ts, n - 1);
    }
  }

  // ---------------------------------------------------------------------------------
  // The pass.

  function ListingIssues(ls: seq<Listing>): seq<Issue> {
    if ls == [] then [] else ListingIssues(ls[..|ls| - 1]) + ls[|ls| - 1].issues
  }

  /** The errors in document order, then the missing titles, then the listings' errors. */
  function StructureIssues(ps: seq<Paragraph>): seq<Issue> {
    var ts := Texts(ps);
    IssuesUpTo(ps, ts, |ps|) + MissingIssues(ts, |Titles|) + ListingIssues(ListingsUpTo(ps, ts, |ps|))
  }

  /** `check_structural_elements`. */
  method CheckStructuralElements(ps: seq<Paragraph>)
    returns (issues: seq<Issue>, structural: seq<nat>, listings: seq<Listing>, code: seq<nat>)
    ensures issues == StructureIssues(ps)
    ensures structural == StructuralUpTo(Texts(ps), |ps|)
    ensures listings == ListingsUpTo(ps, Texts(ps), |ps|)
    ensures code == CodeUpTo(ps, Texts(ps), |ps|)
  {
    var expected;
    issues, structural, listings, code, expected := ScanParagraphs(ps);
    var missing := ReportMissing(Texts(ps), expected);
    issues := AppendListings(issues + missing, listings);
  }

  /** The paragraph loop, keeping `expected_elements` as a map from each title to whether it was seen. */
  method ScanParagraphs(ps: seq<Paragraph>)
    returns (issues: seq<Issue>, structural: seq<nat>, listings: seq<Listing>, code: seq<nat>, expected: map<string, bool>)
    ensures var ts := Texts(ps);
      issues == IssuesUpTo(ps, ts, |ps|) && structural == StructuralUpTo(ts, |ps|)
      && listings == ListingsUpTo(ps, ts, |ps|) && code == CodeUpTo(ps, ts, |ps|)
    ensures Seen(Texts(ps), |ps|, expected)
  {
    ghost var ts := Texts(ps);
    expected := map t | t in Titles :: false;
    var letters: set<string> := {};
    issues, structural, listings, code := [], [], [], [];
    for i := 0 to |ps|
      invariant letters == LettersUpTo(ts, i) && issues == IssuesUpTo(ps, ts, i)
      invariant structural == StructuralUpTo(ts, i) && listings == ListingsUpTo(ps, ts, i) && code == CodeUpTo(ps, ts, i)
      invariant Seen(ts, i, expected)
    {
      var t := TextOf(ps[i]);
      assert t == ts[i];
      expected := MarkSeen(ts, i, t, expected);
      issues, structural, listings, code, letters := Visit(ps, ts, i, t, issues, structural, listings, code, letters);
    }
  }

  /** The loop body apart from `expected_elements`: one paragraph's errors, position, listing, code and letter. */
  method Visit(ps: seq<Paragraph>, ghost ts: seq<string>, i: nat, t: string,
               issues: seq<Issue>, structural: seq<nat>, listings: seq<Listing>, code: seq<nat>, letters: set<string>)
    returns (issues': seq<Issue>, structural': seq<nat>, listings': seq<Listing>, code': seq<nat>, letters': set<string>)
    requires |ts| == |ps| && i < |ps| && t == ts[i]
    requires letters == LettersUpTo(ts, i) && issues == IssuesUpTo(ps, ts, i)
    requires structural == StructuralUpTo(ts, i) && listings == ListingsUpTo(ps, ts, i) && code == CodeUpTo(ps, ts, i)
    ensures letters' == LettersUpTo(ts, i + 1) && issues' == IssuesUpTo(ps, ts, i + 1)
    ensures structural' == StructuralUpTo(ts, i + 1) && listings' == ListingsUpTo(ps, ts, i + 1)
    ensures code' == CodeUpTo(ps, ts, i + 1)
  {
    issues' := issues + StructIssues(ps, t, letters, i);
    structural' := structural;
    if IsStructural(t) {
      structural' := structural + [i];
    }
    listings' := listings + ListingOf(ps, t, i);
    code' := code + CodeOf(ps, t, i);
    letters' := LettersAfter(t, letters);
  }

  /** `expected_elements` after `n` paragraphs: each required title, and whether one of them carried it. */
  predicate Seen(ts: seq<string>, n: nat, expected: map<string, bool>) {
    forall k :: 0 <= k < |Titles| ==> Titles[k] in expected && expected[Titles[k]] == Present(ts, n, Titles[k])
  }

  /** `expected_elements[text] = True` when the paragraph is one of the required titles. */
  method MarkSeen(ghost ts: seq<string>, i: nat, t: string, expected: map<string, bool>) returns (seen: map<string, bool>)
    requires i < |ts| && t == ts[i]
    requires Seen(ts, i, expected)
    ensures Seen(ts, i + 1, seen)
  {
    seen := expected;
    if t in seen {
      seen := seen[t := true];
    }
    forall k | 0 <= k < |Titles|
      ensures Titles[k] in seen && seen[Titles[k]] == Present(ts, i + 1, Titles[k])
    {
      PresentStep(ts, i, Titles[k]);
    }
  }

  lemma PresentStep(ts: seq<string>, i: nat, u: string)
    requires i < |ts|
    ensures Present(ts, i + 1, u) <==> Present(ts, i, u) || ts[i] == u
  {
    if Present(ts, i + 1, u) && ts[i] != u {
      var k :| 0 <= k < i + 1 && k < |ts| && ts[k] == u;
      assert k < i;
    }
  }

  /** The loop over `expected_elements`, in the order the titles were written. */
  method ReportMissing(ts: seq<string>, expected: map<string, bool>) returns (issues: seq<Issue>)
    requires Seen(ts, |ts|, expected)
    ensures issues == MissingIssues(ts, |Titles|)
  {
    issues := [];
    for j := 0 to |Titles|
      invariant issues == MissingIssues(ts, j)
    {
      if !expected[Titles[j]] {
        issues := issues + [MissingIssue(Titles[j])];
      }
    }
  }

  /** The loop that adds each listing's errors at the end. */
  method AppendListings(errors: seq<Issue>, listings: seq<Listing>) returns (issues: seq<Issue>)
    ensures issues == errors + ListingIssues(listings)
  {
    issues := errors;
    for j := 0 to |listings|
      invariant issues == errors + ListingIssues(listings[..j])
    {
      assert listings[..j + 1][..j] == listings[..j];
      issues := issues + listings[j].issues;
    }
    assert listings[..|listings|] == listings;
  }
}
