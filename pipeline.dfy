/**
 * The whole check of one uploaded document: the six passes in their fixed order, each
 * told which paragraphs the earlier passes have claimed, then the union of their errors
 * with duplicates removed; around it, the file steps that decide whether the check ran.
 */
module Pipeline {
  import opened Wrappers
  import opened Text
  import opened Document
  import opened Errors
  import Messages
  import Structure
  import Tables
  import Images
  import Headings
  import Lists
  import General
  import Patterns

  /** `set(paragraphs)` for a list of paragraphs given by position. */
  function Positions(s: seq<nat>): (r: set<nat>)
    ensures forall i :: i in r <==> i in s
  {
    set i | i in s
  }

  /** `[info['paragraph'] for info in listings_info]`. */
  function ListingPositions(listings: seq<Structure.Listing>): (r: set<nat>)
    ensures forall k :: 0 <= k < |listings| ==> listings[k].index in r
  {
    set k | 0 <= k < |listings| :: listings[k].index
  }

  /** The structural elements whose text starts with `Приложение`: the appendix titles. */
  function AppendixPositions(ps: seq<Paragraph>, structural: seq<nat>): set<nat> {
    set i | i in structural && i < |ps| && StartsWith(TextOf(ps[i]), "Приложение")
  }

  /** What the heading pass leaves alone: structural elements, appendix titles, listings and captions. */
  function HeadingExclusions(structural: seq<nat>, appendix: set<nat>, listings: seq<Structure.Listing>,
                             tableCaptions: seq<nat>, imageCaptions: seq<nat>): set<nat>
  {
    Positions(structural) + appendix + ListingPositions(listings) + Positions(tableCaptions) + Positions(imageCaptions)
  }

  /** What the list pass leaves alone: the heading pass's exclusions, the headings and the code found so far. */
  function ListExclusions(headings: seq<nat>, structural: seq<nat>, appendix: set<nat>, listings: seq<Structure.Listing>,
                          tableCaptions: seq<nat>, imageCaptions: seq<nat>, code: seq<nat>): set<nat>
  {
    Positions(headings) + HeadingExclusions(structural, appendix, listings, tableCaptions, imageCaptions) + Positions(code)
  }

  /**
   * What the body-text pass leaves alone: captions, headings, lists, structural elements,
   * appendix titles and code, but not listing titles.
   */
  function GeneralExclusions(tableCaptions: seq<nat>, imageCaptions: seq<nat>, headings: seq<nat>, lists: set<nat>,
                             structural: seq<nat>, appendix: set<nat>, code: seq<nat>): set<nat>
  {
    Positions(tableCaptions) + Positions(imageCaptions) + Positions(headings) + lists + Positions(structural) + appendix + Positions(code)
  }

  /** Everything the passes return, in the order they run. */
  datatype Collected = Collected(
    structure: seq<Issue>, structural: seq<nat>, listings: seq<Structure.Listing>, code: seq<nat>,
    table: seq<Issue>, tableCaptions: seq<nat>,
    image: seq<Issue>, imageCaptions: seq<nat>,
    heading: seq<Issue>, headings: seq<nat>,
    list: seq<Issue>, lists: set<nat>, listCode: seq<nat>,
    general: seq<Issue>)

  /** The structural pass. */
  function StructurePass(ps: seq<Paragraph>): (seq<Issue>, seq<nat>, seq<Structure.Listing>, seq<nat>) {
    var ts := Structure.Texts(ps);
    (Structure.StructureIssues(ps), Structure.StructuralUpTo(ts, |ps|), Structure.ListingsUpTo(ps, ts, |ps|), Structure.CodeUpTo(ps, ts, |ps|))
  }

  /** The caption positions of the table pass. */
  function TableCaptions(ps: seq<Paragraph>): seq<nat> {
    Tables.CaptionPositions(Tables.Lines(ps), |ps|)
  }

  /** The caption positions of the figure pass, skipping the table captions. */
  function ImageCaptions(ps: seq<Paragraph>, skip: set<nat>): seq<nat> {
    Images.CaptionPositions(Images.Lines(ps, skip), |ps|)
  }

  /** The six passes on one document, each fed what the earlier ones returned. */
  function Collect(doc: Doc): Collected {
    var ps := doc.paragraphs;
    var (structure, structural, listings, code) := StructurePass(ps);
    var appendix := AppendixPositions(ps, structural);
    var tableCaptions := TableCaptions(ps);
    var skip := Positions(tableCaptions);
    var imageCaptions := ImageCaptions(ps, skip);
    var h := Headings.HeadingsUpTo(ps, Headings.JudgeOf(ps, HeadingExclusions(structural, appendix, listings, tableCaptions, imageCaptions)), |ps|);
    var listExcluded := ListExclusions(h.headings, structural, appendix, listings, tableCaptions, imageCaptions, code);
    var lists := Lists.ListParagraphs(doc, listExcluded);
    var listCode := Lists.ListCode(doc, listExcluded);
    var generalExcluded := GeneralExclusions(tableCaptions, imageCaptions, h.headings, lists, structural, appendix, code + listCode);
    Collected(structure, structural, listings, code,
              Tables.TableFormattingIssues(doc), tableCaptions,
              Images.ImageFormattingIssues(doc, skip), imageCaptions,
              h.issues, h.headings,
              Lists.ListIssues(doc, listExcluded), lists, listCode,
              General.GeneralIssues(doc, generalExcluded))
  }

  /** `structural_errors + heading_errors + list_errors + table_errors + image_errors + general_formatting_errors`. */
  function AllIssues(c: Collected): seq<Issue> {
    c.structure + c.heading + c.list + c.table + c.image + c.general
  }

  /** The errors reported for a document: every pass's errors, each once, in order of first appearance. */
  function DocumentErrors(doc: Doc): seq<ErrorRecord> {
    Dedup(Records(AllIssues(Collect(doc))))
  }

  /** The passes of `check_document_formatting`, run on the opened copy. */
  method CheckDocument(doc: Doc) returns (errors: seq<ErrorRecord>)
    ensures errors == DocumentErrors(doc)
  {
    var ps := doc.paragraphs;
    var structure, structural, listings, code := Structure.CheckStructuralElements(ps);
    var appendix := AppendixPositions(ps, structural);
    var table, tableCaptions := Tables.CheckTableFormatting(doc);
    var image, imageCaptions := Images.CheckImageFormatting(doc, Positions(tableCaptions));
    var heading, headings, candidates := Headings.CheckHeadingsFormatting(ps, HeadingExclusions(structural, appendix, listings, tableCaptions, imageCaptions));
    var list, lists, listCode := Lists.ValidateLists(doc, ListExclusions(headings, structural, appendix, listings, tableCaptions, imageCaptions, code));
    var found, general := General.CheckGeneralFormatting(doc, GeneralExclusions(tableCaptions, imageCaptions, headings, lists, structural, appendix, code + listCode));
    ghost var c := Collected(structure, structural, listings, code, table, tableCaptions, image, imageCaptions,
                             heading, headings, list, lists, listCode, general);
    assert c == Collect(doc);
    errors := RemoveDuplicates(Records(structure + heading + list + table + image + general));
  }

  // ---------------------------------------------------------------------------------
  // The file steps around the passes.

  /** What `shutil.copyfile` does: copies, refuses with `PermissionError`, or fails some other way or leaves no copy. */
  datatype CopyOutcome = Copied | PermissionDenied | CopyFailed

  /**
   * The file system as the check meets it: whether the upload exists, what copying it
   * does, what `Document` reads from the copy (nothing if it is not a readable Word file),
   * and whether the writes at the end (saving the copy, or writing the error list and the
   * comments) go through.
   */
  datatype Storage = Storage(sourceExists: bool, copying: CopyOutcome, document: Option<Doc>, writesSucceed: bool)

  /** The copy was made and read, so the passes ran. */
  predicate Checked(s: Storage) {
    s.sourceExists && s.copying == Copied && s.document.Some?
  }

  /**
   * `check_document_formatting`: whether the document was processed, the errors found, and
   * whether the error list was written.
   */
  method CheckDocumentFormatting(s: Storage) returns (ok: bool, errors: seq<ErrorRecord>, reported: bool)
    ensures ok <==> Checked(s) && s.writesSucceed
    ensures Checked(s) ==> errors == DocumentErrors(s.document.value)
    ensures !Checked(s) ==> errors == []
    ensures reported <==> ok && errors != []
  {
    errors, reported := [], false;
    if !s.sourceExists {
      return false, errors, reported;
    }
    if s.copying == PermissionDenied {
      return false, errors, reported;
    }
    if s.copying == CopyFailed || s.document.None? {
      return false, errors, reported;
    }
    errors := CheckDocument(s.document.value);
    if !s.writesSucceed {
      return false, errors, reported;
    }
    reported := errors != [];
    ok := true;
  }

  // ---------------------------------------------------------------------------------
  // What the pipeline promises.

  /** A table caption starts with `Таблица`, `Продолжение` or `Окончание`, never with `Рисунок` or `рисунок`. */
  lemma TableCaptionsNoFigure(ps: seq<Paragraph>)
    ensures Images.SkipsNoFigure(ps, Positions(TableCaptions(ps)))
  {
    var ls := Tables.Lines(ps);
    Tables.CaptionPositionsAre(ls, |ps|);
    forall k | 0 <= k < |ps| && k in Positions(TableCaptions(ps))
      ensures !StartsWith(TextOf(ps[k]), Images.FigureWordLower) && !StartsWith(TextOf(ps[k]), Images.FigureWord)
    {
      CaptionTextNoFigure(TextOf(ps[k]));
    }
  }

  lemma CaptionTextNoFigure(t: string)
    requires Tables.IsCaptionLine(Tables.ClassifyLine(t))
    ensures !StartsWith(t, Images.FigureWordLower) && !StartsWith(t, Images.FigureWord)
  {
    var l := Tables.ClassifyLine(t);
    if l.TableCaption? {
      assert StartsWith(t, Tables.TableWord);
      assert t[0] == Tables.TableWord[0];
    } else if l.Continuation? {
      assert t == Tables.ContinuationHead + Patterns.ContinuationMatch(t, Tables.ContinuationHead).value;
      assert t[0] == Tables.ContinuationHead[0];
    } else {
      assert t == Tables.EndingHead + Patterns.ContinuationMatch(t, Tables.EndingHead).value;
      assert t[0] == Tables.EndingHead[0];
    }
    assert Images.FigureWordLower[0] != t[0] && Images.FigureWord[0] != t[0];
  }

  /** Passing the table captions to the figure pass changes nothing it reports or collects. */
  lemma TableCaptionsHarmless(doc: Doc)
    ensures Collect(doc).image == Images.ImageFormattingIssues(doc, {})
    ensures Collect(doc).imageCaptions == ImageCaptions(doc.paragraphs, {})
  {
    TableCaptionsNoFigure(doc.paragraphs);
    Images.SkipHarmless(doc, Positions(TableCaptions(doc.paragraphs)));
  }

  /** Every error any pass finds is reported, and none twice. */
  lemma ErrorsComplete(doc: Doc)
    ensures NoDuplicates(DocumentErrors(doc))
    ensures forall e :: e in DocumentErrors(doc) <==> e in Records(AllIssues(Collect(doc)))
  {
    DedupNoDuplicates(Records(AllIssues(Collect(doc))));
    DedupSameElements(Records(AllIssues(Collect(doc))));
  }

  /** Each pass's issue shows up among the document's errors. */
  lemma PassIssueReported(doc: Doc, i: Issue)
    requires var c := Collect(doc); i in c.structure || i in c.heading || i in c.list || i in c.table || i in c.image || i in c.general
    ensures Record(i) in DocumentErrors(doc)
  {
    var all := AllIssues(Collect(doc));
    assert i in all;
    var k :| 0 <= k < |all| && all[k] == i;
    assert Records(all)[k] == Record(i);
    ErrorsComplete(doc);
  }

  /** A document is clean exactly when no pass finds anything. */
  lemma CleanIff(doc: Doc)
    ensures DocumentErrors(doc) == [] <==> AllIssues(Collect(doc)) == []
  {
    var rs := Records(AllIssues(Collect(doc)));
    DedupSameElements(rs);
    if rs != [] {
      assert rs[0] in Dedup(rs);
    }
  }

  /**
   * The body-text pass never judges a paragraph an earlier pass has claimed: no general
   * error is about a caption, heading, list, structural element, appendix title or code.
   */
  lemma GeneralSkipsClaimed(doc: Doc, k: nat)
    requires k < |Collect(doc).general|
    ensures var c := Collect(doc); var e := c.general[k];
      e.index.Some? && e.index.value !in GeneralExclusions(c.tableCaptions, c.imageCaptions, c.headings, c.lists,
                                                           c.structural, AppendixPositions(doc.paragraphs, c.structural), c.code + c.listCode)
  {
    var c := Collect(doc);
    var excluded := GeneralExclusions(c.tableCaptions, c.imageCaptions, c.headings, c.lists,
                                      c.structural, AppendixPositions(doc.paragraphs, c.structural), c.code + c.listCode);
    assert c.general == General.GeneralIssues(doc, excluded);
    General.GeneralIssuesSound(doc, excluded, k);
  }

  /**
   * `check_document_formatting` as written, on a copy that was read: the table pass raises
   * on a table left open, the `except` branch returns `False` and nothing is written;
   * otherwise it ends as the pipeline above does, ignoring the tree-build raise at lines
   * 704-705 (`ListTree.NestedStartRaises`).
   */
  function OutcomeAsWritten(s: Storage): (ok: bool)
    ensures ok ==> Checked(s) && s.writesSucceed
  {
    Checked(s) && Tables.TableFormattingAsWritten(s.document.value).Some? && s.writesSucceed
  }

  /**
   * A captioned table continued and never ended: as written the whole check fails, while
   * the pipeline above completes (its `ok` holds) and the table pass reports the open table.
   */
  lemma OpenContinuationAborts(s: Storage, r: string)
    requires Checked(s) && s.writesSucceed && Tables.LeftOpen(Tables.Lines(s.document.value.paragraphs), r)
    ensures !OutcomeAsWritten(s)
    ensures var issues := Tables.TableFormattingIssues(s.document.value);
      exists k :: 0 <= k < |issues| && issues[k].msg == Messages.TableOpenContinuation(r)
  {
    Tables.OpenRaisesAsWritten(s.document.value, r);
  }
}
