/**
 * The checks of the list of information resources (`validate_resource_list`): each item of
 * a resource group must be numbered `1`, `2`, `3`, ... in order, end with a full stop, and
 * be set in 14 pt justified text with a 1.25 cm first-line indent, 1.5 line spacing and no
 * side indents or paragraph spacing.
 */
module Resources {
  import opened Wrappers
  import opened Text
  import opened Patterns
  import opened Document
  import opened Messages
  import opened Errors
  import opened Extraction

  /** Every item of every group is a paragraph of `ps`. */
  predicate InDoc(ps: seq<Paragraph>, groups: seq<Group>) {
    forall g: Group, k :: g in groups && 0 <= k < |g| ==> g[k].index < |ps|
  }

  /** The groups the extraction returns are made of the document's own paragraphs. */
  lemma ExtractedInDoc(doc: Doc)
    ensures InDoc(doc.paragraphs, Extract(doc).groups)
    ensures InDoc(doc.paragraphs, Extract(doc).resourceGroups)
  {
    ExtractedGroupsWellFormed(doc);
  }

  /** `prefix.startswith(f"{ind + 1}")`, the sequence test as the source writes it. */
  predicate SequenceAsWritten(prefix: string, ind: nat) {
    StartsWith(prefix, NatToString(ind + 1))
  }

  /** `10.` passes the written test both as the first and as the tenth resource. */
  lemma TenPassesAsFirst()
    ensures SequenceAsWritten("10.", 0) && SequenceAsWritten("10.", 9)
    ensures !SequenceOk("10.", 0) && SequenceOk("10.", 9)
  {
    assert NatToString(1) == "1";
    assert NatToString(10) == NatToString(1) + [DigitChar(0)];
    DigitsThen("10", ".");
    assert "10."[..2] == "10";
  }

  /** The evident intent: the number the prefix starts with is `ind + 1`. */
  predicate SequenceOk(prefix: string, ind: nat) {
    prefix[..LeadingDigits(prefix)] == NatToString(ind + 1)
  }

  /** A prefix fits at most one position in the list. */
  lemma SequenceOkUnique(prefix: string, i: nat, j: nat)
    requires SequenceOk(prefix, i) && SequenceOk(prefix, j)
    ensures i == j
  {
    NatToStringInjective(i + 1, j + 1);
  }

  /** The prefix Word renders for position `ind`, `"<ind + 1>."`, passes the test. */
  lemma RenderedPrefixOk(ind: nat, rest: string)
    requires rest == [] || !IsDigit(rest[0])
    ensures SequenceOk(NatToString(ind + 1) + rest, ind)
  {
    var d := NatToString(ind + 1);
    DigitsThen(d, rest);
    assert (d + rest)[..|d|] == d;
  }

  /** The intended test is stricter than the written one. */
  lemma SequenceOkStricter(prefix: string, ind: nat)
    requires SequenceOk(prefix, ind)
    ensures SequenceAsWritten(prefix, ind)
  {
  }

  /** `run.font.size is None or run.font.size.pt != 14`. */
  predicate SizeNot14(r: Run) {
    r.size != Some(28)
  }

  /** `run.font.italic or run.font.underline or run.font.bold`. */
  predicate Emphasised(r: Run) {
    IsTrue(r.italic) || IsTrue(r.underline) || IsTrue(r.bold)
  }

  function ResourceRunMessages(r: Run): seq<Msg> {
    When(SizeNot14(r), ResourceFontSize) + When(Emphasised(r), ResourceEmphasis)
  }

  /** The checks of an item's number and text. */
  function NumberMessages(it: Item, ind: nat): seq<Msg> {
    When(LeadingDigits(it.prefix) == 0, ResourceNumberFormat)
    + When(!SequenceOk(it.prefix, ind), ResourceSequence(ind + 1))
    + When(!EndsWith(it.text, "."), ResourceNoFinalDot)
  }

  /** The checks of the paragraph's layout. */
  function LayoutMessages(p: Paragraph): seq<Msg> {
    When(IndentNot125cm(p), ResourceFirstIndent) + SideIndentMessages(p, ResourceWho)
    + When(SpacingSet(p), ResourceSpacing)
    + When(p.alignment != AlignJustify, ResourceAlignment) + When(SpacingNot15(p), ResourceLineSpacing)
  }

  /** What one resource item at position `ind` of its group is told, in the order of the checks. */
  function ResourceMessages(p: Paragraph, it: Item, ind: nat): seq<Msg> {
    NumberMessages(it, ind) + RunMessages(p.runs, ResourceRunMessages) + LayoutMessages(p)
  }

  /**
   * An item is told its numbering is not a number, that it is out of sequence, or that it
   * lacks the final stop exactly when that is so.
   */
  lemma NumberMessagesSay(it: Item, ind: nat)
    ensures ResourceNumberFormat in NumberMessages(it, ind) <==> LeadingDigits(it.prefix) == 0
    ensures ResourceSequence(ind + 1) in NumberMessages(it, ind) <==> !SequenceOk(it.prefix, ind)
    ensures ResourceNoFinalDot in NumberMessages(it, ind) <==> !EndsWith(it.text, ".")
    ensures |NumberMessages(it, ind)| <= 3
  {
  }

  /** The same checks with the sequence test as the source writes it. */
  function NumberMessagesAsWritten(it: Item, ind: nat): seq<Msg> {
    When(LeadingDigits(it.prefix) == 0, ResourceNumberFormat)
    + When(!SequenceAsWritten(it.prefix, ind), ResourceSequence(ind + 1))
    + When(!EndsWith(it.text, "."), ResourceNoFinalDot)
  }

  /**
   * As written, an item is told it is out of sequence exactly when its prefix does not start
   * with the digits of its position, and then the corrected checks tell it too; the format
   * and final-stop messages are the same under both.
   */
  lemma AsWrittenToldLess(it: Item, ind: nat)
    ensures ResourceSequence(ind + 1) in NumberMessagesAsWritten(it, ind) <==> !SequenceAsWritten(it.prefix, ind)
    ensures ResourceSequence(ind + 1) in NumberMessagesAsWritten(it, ind) ==> ResourceSequence(ind + 1) in NumberMessages(it, ind)
    ensures !SequenceAsWritten(it.prefix, ind) ==> NumberMessagesAsWritten(it, ind) == NumberMessages(it, ind)
  {
    if !SequenceAsWritten(it.prefix, ind) && SequenceOk(it.prefix, ind) {
      SequenceOkStricter(it.prefix, ind);
    }
  }

  /** A typed `1. Site, 2019` has the prefix `19` (its marker and last character): the written test passes it, the corrected one does not. */
  lemma TypedYearPassesAsWritten()
    ensures SequenceAsWritten("19", 0) && !SequenceOk("19", 0)
  {
    assert NatToString(1) == "1";
    DigitsThen("19", "");
    assert "19" + "" == "19";
  }

  /** A resource item is told of a wrong size exactly when one of its visible runs is not 14 pt. */
  lemma ResourceSizeReported(p: Paragraph)
    ensures ResourceFontSize in RunMessages(p.runs, ResourceRunMessages)
            <==> exists k :: 0 <= k < |p.runs| && Visible(p.runs[k]) && SizeNot14(p.runs[k])
  {
    RunMessagesHas(p.runs, ResourceRunMessages, ResourceFontSize);
  }

  /** How one item is told, from the paragraphs, the item and its position. */
  type Teller = (seq<Paragraph>, Item, nat) -> seq<Issue>

  /** The issues of one resource item, placed at the first paragraph with the same content. */
  function ResourceItemIssues(ps: seq<Paragraph>, it: Item, ind: nat): seq<Issue> {
    if it.index < |ps|
    then ParagraphIssues(ps[it.index].text, IndexByContent(ps, it.index), ResourceMessages(ps[it.index], it, ind))
    else []
  }

  /** An excluded paragraph is passed over but keeps its position. */
  function GroupIssues(g: Group, excluded: set<nat>, ps: seq<Paragraph>, tell: Teller, n: nat): seq<Issue>
    requires n <= |g|
  {
    if n == 0 then []
    else GroupIssues(g, excluded, ps, tell, n - 1)
         + (if g[n - 1].index in excluded then [] else tell(ps, g[n - 1], n - 1))
  }

  function IssuesFrom(groups: seq<Group>, excluded: set<nat>, ps: seq<Paragraph>, tell: Teller, n: nat): seq<Issue>
    requires n <= |groups|
  {
    if n == 0 then []
    else IssuesFrom(groups, excluded, ps, tell, n - 1) + GroupIssues(groups[n - 1], excluded, ps, tell, |groups[n - 1]|)
  }

  /** The issues of every resource item, group after group. */
  function ResourceIssues(ps: seq<Paragraph>, groups: seq<Group>, excluded: set<nat>): seq<Issue> {
    IssuesFrom(groups, excluded, ps, ResourceItemIssues, |groups|)
  }

  /** `validate_resource_list`: every item of every resource group, in document order. */
  method ValidateResourceList(ps: seq<Paragraph>, groups: seq<Group>, excluded: set<nat>) returns (issues: seq<Issue>)
    ensures issues == ResourceIssues(ps, groups, excluded)
  {
    issues := TellItems(groups, excluded, ps, ResourceItemIssues);
  }

  /** The loops of `validate_resource_list` for a given way of telling one item. */
  method TellItems(groups: seq<Group>, excluded: set<nat>, ps: seq<Paragraph>, tell: Teller) returns (issues: seq<Issue>)
    ensures issues == IssuesFrom(groups, excluded, ps, tell, |groups|)
  {
    issues := [];
    for i := 0 to |groups|
      invariant issues == IssuesFrom(groups, excluded, ps, tell, i)
    {
      var g := groups[i];
      var found: seq<Issue> := [];
      for ind := 0 to |g|
        invariant found == GroupIssues(g, excluded, ps, tell, ind)
      {
        if g[ind].index !in excluded {
          found := found + tell(ps, g[ind], ind);
        }
      }
      issues := issues + found;
    }
  }

  /** `[item[2] for group in resource_groups for item in group if item[2] not in excluded]`. */
  function ResourceParagraphs(groups: seq<Group>, excluded: set<nat>): (r: set<nat>)
    ensures forall i :: i in r <==> i !in excluded && exists g: Group, k :: g in groups && 0 <= k < |g| && g[k].index == i
  {
    set g: Group, k | g in groups && 0 <= k < |g| && g[k].index !in excluded :: g[k].index
  }
}
