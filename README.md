# Thesis format checker — a Dafny model

The service checks an uploaded Word thesis against a formatting standard. It makes a copy of
the document, then runs six passes over its paragraphs and tables:

- structural elements, appendices, listings and code;
- tables and their captions;
- figures and their captions;
- headings;
- lists, resource lists included;
- ordinary body text.

Each pass records errors through one helper (`add_error`), which classifies each message by
keyword. Repeated errors are then removed and the rest are written out.

This project models that core together with three small pieces of the service around it:
- the log level chosen for an HTTP request from its status code;
- the parsing of the log-rotation size setting;
- the password rule of the user-creation schema.

Form of the model:
- **A paragraph** (`Document.Paragraph`) holds its raw text, its runs and the paragraph
  properties the checks read: alignment, indents, spacing, line spacing, style, numbering
  reference and whether it holds a picture.
- **A table** holds its alignment and the paragraphs just before and after it.
- **Each validator** is a `method` with loops and invariants, proved equal to a specification
  function over the paragraphs.
- **Properties** are lemmas about those functions: when a message is given, what the trackers
  hold, and which paragraphs a pass collects.
- **Messages** are decided as values of `Messages.Msg`. `Messages.Sentence` spells each value
  out in the source's words, and `Errors.Record` turns an issue into the stored error record.
- **Paragraphs are identified by position** in the document. This is what the passes' exclusion sets evidently mean; the second row under "## Findings" (lines 2590-2597) explains why the code as written behaves differently.
- **Pure helpers** are functions and lemmas: status-code levels, size parsing, password
  rules and output paths.

All line references are to `app/utils/formatting.py` unless another file is named.

## Model

| member | source | states |
|---|---|---|
| Errors.Record | app/utils/formatting.py:76-130 | The stored record carries the message spelled out, its keyword category and the element's stripped text. A missing index is stored as -1. |
| Errors.ClassifyByFirstRow | app/utils/formatting.py:92-108 | A message takes the category of the first stem row (heading, list, listing, table, figure, paragraph, code, structure) whose stem occurs in the lower-cased message. A message about a heading in a list is a heading error. |
| Errors.ClassifyDefault | app/utils/formatting.py:92-108 | A message is a plain format error exactly when it contains none of the stems. |
| Errors.RemoveDuplicates | app/utils/formatting.py:3789-3813 | The result is the input with every later repeat of a record dropped. It has no repeats and holds exactly the records of the input. |
| Errors.DedupSameElements | app/utils/formatting.py:3789-3813 | Removing repeats keeps every record and adds none. |
| Errors.DedupNoDuplicates | app/utils/formatting.py:3789-3813 | After removing repeats, no record occurs twice. |
| Errors.DedupOfDistinct | app/utils/formatting.py:3789-3813 | A list without repeats is returned unchanged. |
| Errors.DedupIdempotent | app/utils/formatting.py:3789-3813 | Removing repeats twice is the same as removing them once. |
| Errors.DedupOrder | app/utils/formatting.py:3789-3813 | First occurrences keep their relative order. |
| Document.IndexByContent | app/utils/formatting.py:57-75 | The index reported for a paragraph is the first one with the same stripped text and the same style. It is never after the paragraph itself. |
| Document.HalfInchIndentTold | app/utils/formatting.py:2701-2706 | A first-line indent of exactly 0.5 in (720 twips) is told it is not 0.49 in, since in floating point `0.5 - 0.49` exceeds `0.01`. An indent of 709 twips (1.25 cm) is not told. |
| Document.SideIndentMessages | app/utils/formatting.py:606-618 | One message exactly when the left or the right indent exceeds 0.01 in, naming the side or sides at fault. |
| Document.RunMessagesHas | app/utils/formatting.py:571-590 | A run-level message is given exactly when some visible run calls for it. Runs whose stripped text is empty are never judged. |
| Numbering.GetNumberingFormats | app/utils/formatting.py:187-224 | The method's loops build exactly the catalog that the three folds over the numbering part describe. A missing part gives an empty catalog. |
| Numbering.LevelMapLastWins | app/utils/formatting.py:207-213 | A level is in a definition's map exactly when some `w:lvl` declares it. The last declaration wins. |
| Numbering.AbstractMapLastWins | app/utils/formatting.py:205-214 | An abstract id is mapped exactly when declared. The last declaration wins. |
| Numbering.NumMapLastWins | app/utils/formatting.py:216-220 | A numbering instance is in the catalog exactly when declared. It gets the levels of the abstract definition its last declaration names, or none when that definition is unknown. |
| Numbering.Advance | app/utils/formatting.py:446-451 | A numbered paragraph increments its own level's counter and drops every deeper counter of the same instance. Every other counter is unchanged. |
| Numbering.RenderFirstLevel | app/utils/formatting.py:461-468 | With decimal levels the template `%1.` renders as the count followed by a dot. |
| Numbering.RenderSecondLevel | app/utils/formatting.py:461-468 | With decimal levels a `%1.%2` template renders as the two counts joined by a dot. |
| Numbering.PrefixMessage | app/utils/formatting.py:225-324 | A non-decimal format is always refused. A decimal prefix deeper than three levels is always refused as too deep. An accepted prefix is decimal with one to three levels. |
| Numbering.AcceptedStartsWithDigit | app/utils/formatting.py:251-268 | Every accepted prefix starts with a digit. |
| Numbering.FirstLevelAccepted | app/utils/formatting.py:251-253 | Any count followed by a dot is an accepted first-level prefix. |
| Numbering.NestedAccepted | app/utils/formatting.py:264-267 | Two or three counts joined by dots are an accepted nested prefix. |
| Numbering.DeepPrefixRejected | app/utils/formatting.py:279-290 | Four or more dots are always reported as too deep. |
| Patterns.HeadingMatch | app/utils/formatting.py:383 | `^(\d+(?:\.\d+)*)\s+(.+)`: a dotted number, whitespace, then text. |
| Patterns.ManualListMatch | app/utils/formatting.py:389-391 | `(\d+\|[а-я])[.\)]\s*(.*)`. The prefix is the marker plus the match's last character, and the text is the stripped remainder. |
| Patterns.CaptionMatch | app/utils/formatting.py:2831-2836 | The caption full-match: the word, a space, the number, a spaced en dash and a capitalised name. |
| Patterns.ListingMatch | app/utils/formatting.py:2288 | `Листинг (\d+(?:\.\d+)?) – (.+)`, with the name ending at the first newline. |
| Patterns.ContinuationMatch | app/utils/formatting.py:2838-2841 | The continuation and ending full-match. It yields the referenced table number. |
| Patterns.JoinDotsParts | app/utils/formatting.py:1628 | Splitting a written dotted number on its dots gives the numbers back. |
| Extraction.ExtractListItems | app/utils/formatting.py:325-487 | The method's single loop, with its open group, counters and resource flag, yields exactly the groups, resource groups and errors of the per-paragraph specification. |
| Extraction.Close | app/utils/formatting.py:402-411 | Ending a group empties the open group and the counters, leaves the resource section and changes no error. |
| Extraction.ExtractedGroupsWellFormed | app/utils/formatting.py:325-487 | Every returned group is non-empty and holds list paragraphs in document order. Every resource group lies after the title of the list of resources. |
| Resources.ValidateResourceList | app/utils/formatting.py:488-659 | The loops give exactly the issues of every non-excluded item of every resource group, in document order. |
| Resources.NumberMessagesSay | app/utils/formatting.py:521-556 | An item is told its numbering is not a number exactly when its prefix has no leading digit. It is told it is out of sequence exactly when the number the prefix starts with is not its position. This is the corrected test below, not the written `startswith`. It is told it lacks the final stop exactly when its text does not end with one. |
| Resources.ResourceSizeReported | app/utils/formatting.py:571-580 | The size message is given exactly when a visible run is not 14 pt. |
| Resources.ResourceParagraphs | app/utils/formatting.py:1230-1231 | Exactly the non-excluded paragraphs of the resource groups. |
| Resources.ExtractedInDoc | app/utils/formatting.py:325-487 | Every extracted item refers to a paragraph of the document. |
| Resources.TenPassesAsFirst | app/utils/formatting.py:534-535 | As written, a prefix `10.` passes the sequence test at position 1 and at position 10. The corrected test accepts it only at position 10. |
| Resources.SequenceOkUnique | app/utils/formatting.py:534-535 | Under the corrected test, a prefix fits at most one position. |
| Resources.RenderedPrefixOk | app/utils/formatting.py:534-535 | The prefix Word renders for position n, `n.`, passes the corrected test. |
| Resources.SequenceOkStricter | app/utils/formatting.py:534-535 | Whatever the corrected test accepts, the written test accepts too. The corrected test rejects every prefix the written one rejects, and some more. |
| Resources.AsWrittenToldLess | app/utils/formatting.py:533-543 | With the written test, an item is told it is out of sequence exactly when its prefix does not start with the digits of its position. The corrected checks then tell it too, and both give the same messages. |
| Resources.TypedYearPassesAsWritten | app/utils/formatting.py:534-535 | The typed item `1. Site, 2019` has the prefix `19` (its marker and its last character, line 391). The written test passes it at position 1; the corrected test does not. |
| ListTree.BuildListTree | app/utils/formatting.py:683-720 | The loop over the group builds the tree of the specification. The tree is well formed: every parent precedes its children and sits one level up. |
| ListTree.TreeWellFormed | app/utils/formatting.py:692-718 | The corrected tree build always yields a well-formed arena. |
| ListTree.AsWrittenAgrees | app/utils/formatting.py:702-708 | Wherever the source's build does not raise, it builds the same tree as the corrected build. |
| ListTree.StepAgrees | app/utils/formatting.py:702-708 | One step raises exactly when the level has a counter but no parent entry. Otherwise it matches the corrected step. |
| ListTree.NestedStartRaises | app/utils/formatting.py:704-705 | A group that opens with two second-level items makes the source raise `KeyError` on the second. |
| ListTree.SecondLevelPrefixes | app/utils/formatting.py:697 | `1.1` and `1.2` are read as two-number prefixes. |
| ListTree.DigitRunsJoinDots | app/utils/formatting.py:697 | The digit runs of a written dotted number are its numbers. |
| ListTree.UpTo | app/utils/formatting.py:715-718 | Deleting the deeper levels keeps exactly the entries at or above the level, with their old values. |
| ListTree.CheckNumberingOrder | app/utils/formatting.py:723-786 | The loop over the pre-order visits, with `position` and `level_counters`, reports exactly the reference errors of the traversal. |
| ListTree.NumberingErrorsCount | app/utils/formatting.py:739-786 | The traversal's errors are those of a counting reading. Each visit expects one more than the earlier visits of its context. |
| ListTree.CountersCount | app/utils/formatting.py:753-763 | A context has a counter exactly when some node of it was visited, and the counter holds how many were. |
| ListTree.CheckIsReference | app/utils/formatting.py:739-786 | The stepwise check equals the reference error list at every point of the traversal. |
| ListTree.DetectBadOrderTree | app/utils/formatting.py:789-805 | The errors of every group's tree, group after group. |
| Lists.ValidateLists | app/utils/formatting.py:1189-1536 | The method yields exactly the specification's issues, list paragraphs and newly found code paragraphs. |
| Lists.ScanParagraphs | app/utils/formatting.py:1234-1351 | The paragraph loop yields exactly the issues, lists and code of the per-paragraph verdicts. |
| Lists.PassLists | app/utils/formatting.py:1279-1283 | A paragraph is listed exactly when it is judged a list. |
| Lists.TextualListReported | app/utils/formatting.py:1285-1300 | A paragraph is told it uses a typed list exactly when it is one. Such a paragraph is always listed. |
| Lists.BoldNotTextual | app/utils/formatting.py:1285-1301 | A bold list paragraph is never told it is a typed list. |
| Lists.HeadingLikeSkipsFont | app/utils/formatting.py:1303-1351 | A bold paragraph that looks like a heading is told so and nothing about its font. Otherwise every visible run in a wrong font, size or emphasis is told. |
| Lists.CheckEnds | app/utils/formatting.py:1375-1419 | The end-character loop gives exactly the flags of the end rule. |
| Lists.PunctuatedClean | app/utils/formatting.py:1375-1419 | A list consistently punctuated with `,` or `;` and ending with `.` draws no end message. |
| Lists.MixedEndFlagged | app/utils/formatting.py:1407-1417 | After a first item ending with `,`, a middle item ending with `;` is flagged, and nothing else is. |
| Lists.FirstFlagged | app/utils/formatting.py:1384-1395 | The first of several items is flagged when it ends with neither `,` nor `;`. |
| Lists.KeepItems | app/utils/formatting.py:1359-1371 | The four filters keep exactly the items that are neither claimed, resources, captions, titles nor heading-shaped. |
| Lists.CheckGroups | app/utils/formatting.py:1353-1492 | The group loop gives exactly the end and layout issues of every group. |
| Lists.GroupParagraphs | app/utils/formatting.py:1354-1357 | Exactly the items of the groups that are neither excluded nor resources. |
| Lists.CollectNumbered | app/utils/formatting.py:1495-1514 | The early-exit loop keeps exactly the groups that have a non-bullet numbered item not excluded, with excluded items dropped. |
| Lists.ReportOrder | app/utils/formatting.py:1516-1534 | Every order error is reported unless its paragraph is claimed, a resource or heading-like. |
| Headings.CheckHeadingsFormatting | app/utils/formatting.py:1539-1955 | The loop yields exactly the issues, headings and list candidates of the per-paragraph specification. The tracker of last numbers is threaded through. |
| Headings.HeadingsOrdered | app/utils/formatting.py:1564-1734 | The headings and the candidates are increasing positions of the document. |
| Headings.OnlyHeadingsRecorded | app/utils/formatting.py:1723-1796 | Only a heading that passes its format test moves the tracker, and a heading is never also a list candidate. |
| Headings.TooDeepNotRecorded | app/utils/formatting.py:1631-1643 | A number of more than three levels is told so, sent to the list candidates, and leaves the tracker unchanged. |
| Headings.RecordedLevels | app/utils/formatting.py:1793-1796 | Recording a heading of level L keeps the shallower levels, sets L and drops every deeper level. |
| Headings.ParentMessagesNone | app/utils/formatting.py:1746-1762 | One parent message per disagreeing parent level. None exactly when all parent levels agree. |
| Headings.NumberingRule | app/utils/formatting.py:1764-1791 | A heading whose parents agree is told nothing exactly when it continues its siblings or starts a new parent at 1. |
| Headings.SiblingExpected | app/utils/formatting.py:1765-1775 | A heading that skips a sibling is told the number expected. |
| Headings.SkippedSubheading | app/utils/formatting.py:1740-1796 | For `1`, `1.1`, `1.3`, only the third is told, with `1.2` expected. |
| Headings.BlankLinesReported | app/utils/formatting.py:1683-1834 | A heading is told about its blank lines exactly when they are missing before or after it. |
| Headings.NumberNeverEndsWithDot | app/utils/formatting.py:1799-1809 | The number a heading match yields never ends with a dot, so that check never fires. |
| Headings.CheckParents | app/utils/formatting.py:1746-1762 | The parent loop gives one message per disagreeing parent level. |
| Headings.CheckNumbering | app/utils/formatting.py:1740-1791 | The numbering check of one heading equals its specification. |
| Structure.CheckStructuralElements | app/utils/formatting.py:2036-2569 | The loops yield exactly the specification's errors, structural paragraphs, listings and code paragraphs. |
| Structure.StructuralAre | app/utils/formatting.py:2077-2170 | `structural_paragraphs` holds exactly the titles and appendix titles, each once and in document order. |
| Structure.LettersUsed | app/utils/formatting.py:2168-2193 | The remembered letters are exactly the acceptable letters of the earlier appendix titles. |
| Structure.RepeatedLetterReported | app/utils/formatting.py:2171-2193 | An appendix title is told its letter is wrong exactly when it is not one allowed letter. It is told the letter repeats exactly when an earlier title used it. |
| Structure.AppendixLetterExamples | app/utils/formatting.py:2171-2172 | `Приложение А` carries the letter А, `ПриложениеА` carries none, and `Ё` and `АБ` are refused. |
| Structure.AlphabetShape | app/utils/formatting.py:2063-2066 | The allowed letters are 25 capital Cyrillic letters, without Ё, З, Й, О, Ч, Ъ, Ы, Ь. |
| Structure.MissingReported | app/utils/formatting.py:2550-2559 | A required title is reported missing exactly when no paragraph's stripped text is that title. |
| Structure.MissingAtStart | app/utils/formatting.py:2550-2559 | At most one missing-title error per required title, each at index 0. |
| Structure.CodeAfterListingTwice | app/utils/formatting.py:2392-2475 | A code paragraph right after a listing caption is checked twice and recorded as code twice. |
| Structure.TitlesNotCode | app/utils/formatting.py:2392-2475 | Titles and appendix titles are never taken for code unless they follow a listing caption. |
| Structure.AppendListings | app/utils/formatting.py:2561-2566 | Each listing's errors are appended after all the others, in listing order. |
| Tables.CheckTableFormatting | app/utils/formatting.py:2770-3303 | The three loops yield exactly the specification's errors and the positions of the caption paragraphs. |
| Tables.CaptionPositionsAre | app/utils/formatting.py:2843-2845 | The loop records exactly the caption and reference lines, each once and in document order. |
| Tables.CaptionsBeforeAre | app/utils/formatting.py:3052 | `table_captions` holds exactly the numbers of the well-formed captions read so far. |
| Tables.OrphanReported | app/utils/formatting.py:3137-3190 | A continuation or ending line is reported orphaned exactly when no earlier caption carries its number. |
| Tables.LastMarkIs | app/utils/formatting.py:3052-3211 | The tracker holds, for each number, what the last line that marked it wrote. |
| Tables.MarkOrderAre | app/utils/formatting.py:3052-3211 | The tracker's keys, in insertion order, are each written once and are exactly the numbers with a mark. |
| Tables.OpenReported | app/utils/formatting.py:3291-3300 | A table is reported continued-but-never-ended exactly when the last line that marked it was a continuation and some caption carries its number. |
| Tables.AsWrittenRaisesOnOpen | app/utils/formatting.py:3291-3300 | As written, the pass raises `ValueError` exactly when the corrected pass reports a table left open. |
| Tables.OpenRaisesAsWritten | app/utils/formatting.py:3291-3300 | A table left open is reported by the corrected pass, and it makes the pass as written raise. |
| Tables.ContinuedNeverEnded | app/utils/formatting.py:3160-3163 | A caption `Таблица 1` followed by `Продолжение таблицы 1`, and no ending, leaves table 1 open. |
| Tables.OpenIssuesHas | app/utils/formatting.py:3291-3300 | A number is reported by the last loop exactly when it is among the tracker's keys and left open. |
| Tables.MarkerExists | app/utils/formatting.py:3054-3211 | Whenever some number has a mark, the last marking paragraph exists and precedes the end. |
| Tables.LastFormatIs | app/utils/formatting.py:3020-3034 | `last_caption_format` is the format of the last main-body caption so far. |
| Tables.LastFormatNone | app/utils/formatting.py:3020-3034 | It is unset exactly when no main-body caption came before. |
| Tables.FormatChangeReported | app/utils/formatting.py:3020-3034 | A main-body caption is told of a format change exactly when its format differs from the last one. |
| Tables.MainSequenceReported | app/utils/formatting.py:3036-3050 | The k-th caption numbered X in the main body must carry k. It is told so exactly when it does not. |
| Tables.AppendixSequenceReported | app/utils/formatting.py:2944-2957 | Inside appendix l the captions must run l.1, l.2, … however often the appendix is resumed. |
| Tables.FormatChangeExample | app/utils/formatting.py:3020-3034 | After chapter 1 and caption 1.1, a caption numbered 1 is told only that the format changed. |
| Tables.AppendixSequenceExample | app/utils/formatting.py:2944-2957 | The first caption of appendix А, if numbered А.2, is told that А.1 was expected. |
| Tables.CaptionFromFinds | app/utils/formatting.py:3244-3255 | For the first table a caption is found exactly when blank paragraphs lead up to a caption-prefixed one. |
| Tables.HeadingIsNothingElse | app/utils/formatting.py:2806-2843 | A chapter heading is never also an appendix title, a caption or a reference line. |
| Tables.CheckTables | app/utils/formatting.py:3214-3289 | The table loop gives exactly each table's centring, caption and blank-line messages. |
| Images.CheckImageFormatting | app/utils/formatting.py:3306-3736 | The loop yields exactly the specification's errors and caption positions for the given skip set. |
| Images.CaptionPositionsAre | app/utils/formatting.py:3375-3377 | The loop records exactly the paragraphs taken for captions, each once and in document order. |
| Images.CaptionShapeIff | app/utils/formatting.py:3375 | A line counts as a caption exactly when it starts with `Рисунок`, or with `рисунок` and is not skipped. This is the source's `or` binding looser than `and`. |
| Images.CaptionsAre | app/utils/formatting.py:3375-3377 | The same rule, stated on the collected positions of a document. |
| Images.LowercaseMalformed | app/utils/formatting.py:3367-3373 | A caption spelled `рисунок` never matches the caption pattern, so it is always told it is malformed. |
| Images.MalformedCaptionMessages | app/utils/formatting.py:3379-3555 | A malformed caption is told its layout and its shape only; its style is not examined. |
| Images.NoCaptionReported | app/utils/formatting.py:3689-3734 | A picture past the first paragraph is told of a missing caption exactly when no well-formed, unskipped caption follows it. It is told of a blank line above exactly when there is one. |
| Images.FormatChangeReported | app/utils/formatting.py:3514-3529 | A main-body caption is told of a format change exactly when its format differs from the last one. |
| Images.LastFormatIs | app/utils/formatting.py:3514-3529 | `last_caption_format` is the format of the last main-body caption so far. |
| Images.MainSequenceReported | app/utils/formatting.py:3531-3544 | The k-th caption numbered X must carry k. It is told so exactly when it does not. |
| Images.SectionSequenceReported | app/utils/formatting.py:3500-3512 | In chapter h the captions numbered Y.X must run h.1, h.2, … from the chapter heading on. |
| Images.AppendixSequenceReported | app/utils/formatting.py:3454-3465 | Inside appendix l the captions must run l.1, l.2, … however often the appendix is resumed. |
| Images.SectionSequenceExample | app/utils/formatting.py:3500-3512 | In chapter 2, after caption 2.1, a caption numbered 2.3 is told that 2.2 was expected, and nothing else. |
| Images.SkipHarmless | app/utils/formatting.py:3335-3375 | When no skipped paragraph starts with `Рисунок` or `рисунок`, the pass reports and collects exactly what it does with nothing skipped. |
| Images.PictureSame | app/utils/formatting.py:3649-3734 | A picture's messages do not depend on the skip set. |
| General.CheckGeneralFormatting | app/utils/formatting.py:2572-2769 | The loop gives exactly the specification's errors. The flag returned is set exactly when there are errors. |
| General.ScanRuns | app/utils/formatting.py:2620-2642 | Each flag is raised exactly when some visible run is at fault for it. |
| General.ScanCode | app/utils/formatting.py:2608-2612 | A paragraph is code exactly when some visible run with a font is in Courier New. |
| General.GeneralIssuesSound | app/utils/formatting.py:2594-2767 | Every error is about an unclaimed body paragraph, at its own index, with one of that paragraph's messages. |
| General.GeneralIssuesComplete | app/utils/formatting.py:2594-2767 | Every message a body paragraph calls for is among the errors. |
| General.NothingFound | app/utils/formatting.py:2594-2769 | The pass finds nothing exactly when every body paragraph passes all its checks. |
| General.SkippedTold | app/utils/formatting.py:2594-2600 | A claimed paragraph, or one without text, is told nothing. |
| General.ClaimedJudgedAsWritten | app/utils/formatting.py:2590-2597 | With nothing excluded, as the identity test makes it, a claimed paragraph that its text does not set aside is reported with each of its body-text messages. Excluded by position, it is told none of them. |
| General.ConformingIff | app/utils/formatting.py:2617-2767 | A body paragraph is told nothing exactly when it conforms. |
| General.ExplicitNoUnderline | app/utils/formatting.py:2640-2641 | A visible run that explicitly turns underlining off is still told it is underlined. |
| Pipeline.CheckDocument | app/utils/formatting.py:3875-3915 | The passes run in the source's order, each given what the earlier ones claimed. The result is the records of all their issues with repeats removed. |
| Pipeline.CheckDocumentFormatting | app/utils/formatting.py:3841-3938 | `True` exactly when the upload exists, is copied and opened, and the final writes succeed. The errors are those of the opened copy, or none when it was not checked. The list is written exactly when processing succeeded and found errors. |
| Pipeline.ErrorsComplete | app/utils/formatting.py:3909-3915 | Every error any pass finds is reported, and none twice. |
| Pipeline.PassIssueReported | app/utils/formatting.py:3909-3915 | Each pass's issue appears among the document's errors. |
| Pipeline.CleanIff | app/utils/formatting.py:3909-3921 | A document has no errors exactly when no pass finds anything. |
| Pipeline.OpenContinuationAborts | app/utils/formatting.py:3293-3300 | For a captioned table continued and never ended, the check as written fails at line 3299 and returns `False` from its `except` branch. The corrected pipeline completes, and its table pass reports the open table. |
| Pipeline.GeneralSkipsClaimed | app/utils/formatting.py:3903-3907 | The body-text pass never reports a caption, heading, list, structural element, appendix title or code paragraph. |
| Pipeline.TableCaptionsHarmless | app/utils/formatting.py:3884-3887 | Passing the table captions to the figure pass as its skip set changes nothing it reports or collects. |
| Pipeline.Positions | app/utils/formatting.py:3881 | A paragraph is in the set exactly when it is in the list. |
| Paths.OutputsBesideUpload | app/utils/formatting.py:3815-3838 | Both outputs lie in the upload's directory. The copy is named stem + `_NEW` + suffix, and the error list stem + `_errors.json`. |
| Paths.InDirectory | app/utils/formatting.py:3815-3838 | `dir/name.docx` gives `dir/name_NEW.docx` and `dir/name_errors.json`. |
| Paths.WithoutDirectory | app/utils/formatting.py:3815-3838 | A bare `name.docx` gives outputs without a directory. |
| Paths.StemSuffix | app/utils/formatting.py:3831-3832 | Stem and suffix make up the name. The suffix is empty or one dot followed by no other dot. |
| Paths.DotNames | app/utils/formatting.py:3831-3832 | Only the last dot starts the suffix, and a leading dot starts none (`a.tar.gz`, `.env`, `notes`). |
| Paths.ParseRender | app/utils/formatting.py:3825-3836 | Writing a well-formed path and reading it back gives the same path. |
| Paths.SplitJoin | app/utils/formatting.py:3825 | Splitting what was joined on `/` gives the pieces back. |
| Logger.LogLevel | app/core/logger.py:110-120 | The level is one of DEBUG, INFO, WARNING and ERROR. |
| Logger.LevelMeaning | app/core/logger.py:110-120 | DEBUG exactly for 3xx, WARNING exactly for 4xx, ERROR exactly for 500 and above, INFO exactly below 300, codes under 100 included. |
| Logger.LevelByClass | app/core/logger.py:110-120 | The level depends only on the status class, the code divided by 100. |
| Logger.SizesInBytes | app/core/logger.py:67-76 | `nMB`, `nKB` and `nGB` are n × 1048576, n × 1024 and n × 1073741824 bytes. |
| Logger.UnitRecognised | app/core/logger.py:70-75 | A normalised setting ending in `MB`, `KB` or `GB` is given that unit's factor. |
| Logger.ParsedWithUnit | app/core/logger.py:69-75 | A setting whose upper-cased, stripped text ends in a unit is the number before the unit times the unit's factor. |
| Logger.NegativeSize | app/core/logger.py:67-76 | A negative size is not refused: `-nKB` is −n × 1024. |
| Logger.PlainSize | app/core/logger.py:67-76 | A bare number is that many bytes. |
| Logger.UnitCaseIgnored | app/core/logger.py:67-76 | Upper-casing the setting first changes nothing. |
| Logger.UnitAlone | app/core/logger.py:67-76 | A unit alone and the empty string are refused, since `int` raises. |
| Logger.PyIntOfNat | app/core/logger.py:71 | `int(str(n)) == n`, and the same for `-n`. |
| Passwords.ValidatePasswordComplexity | app/schemas/user.py:56-73 | An accepted password is returned unchanged. |
| Passwords.AcceptedIff | app/schemas/user.py:69-73 | A password is accepted exactly when it has a digit and one of `!@#$%^&*()_+`. |
| Passwords.NoDigitIff | app/schemas/user.py:69-70 | The digit complaint is raised exactly when there is no digit, whatever else is missing. |
| Passwords.NoSpecialIff | app/schemas/user.py:71-72 | The special-character complaint is raised exactly when there is a digit but no special character. |
| Passwords.LettersOnly | app/schemas/user.py:69-70 | `pw` is refused for the missing digit. |
| Passwords.DigitOnly | app/schemas/user.py:71-72 | `p1` is refused for the missing special character. |
| Passwords.DigitAndSpecial | app/schemas/user.py:69-73 | `1!` is accepted. |

## Left out

- The file system is the `Pipeline.Storage` value: whether the upload exists, what copying does, what `Document` reads, and whether the final writes succeed. Logging, saving the copy, the JSON file and the Word comments are not modelled.
- `add_comments_to_document` and `set_red_background` write into the document. Their effects are not modelled.
- `validate_bibliographic_entry` is left out. The resource-list model omits the records it would add.
- `check_code_formatting` is not called by `check_document_formatting` and is not modelled.
- `get_paragraph_index` is not used by the modelled passes.
- The write-only `last_numbers_by_context` and `figure_indices`, and the table pass's unused `heading_numbers` positions, are not modelled.
- Paragraph identity: the passes test `p in excluded_paragraphs`, `skip_paragraphs` and `resource_paragraphs` on python-docx paragraph objects (for example lines 512, 825, 1231, 1308 and 2597). Each `doc.paragraphs` call makes fresh objects, and they compare by identity, so in the program these cross-pass exclusions never take effect. The model follows the evident intent and identifies paragraphs by position; the second row under "## Findings" (lines 2590-2597) records the difference.
- `list_candidates` is appended to by `validate_lists` but never read again, so it is not modelled.
- Exceptions raised inside a pass, and the `except` branch at lines 3935-3938, are modelled only for the two raises listed under "## Findings". The pipeline uses the corrected tree build and the corrected open-table report, so in the model no pass raises.
- CheckDocumentFormatting: returns `True`, and reports the open table, for a document with a captioned table continued and never ended. The program returns `False` there, through the `ValueError` at line 3299; `Pipeline.OutcomeAsWritten` and `Pipeline.OpenContinuationAborts` state that outcome.
- NumberMessagesSay: states the corrected sequence test of the resource list, not the written `startswith` at line 534. `Resources.NumberMessagesAsWritten` and `Resources.AsWrittenToldLess` state the written test.
- Resources.ValidateResourceList: uses the corrected sequence test. A prefix `10.` at position 1, or the prefix `19` of a typed `1. Site, 2019`, passes in the program and is told here.
- Lists.ValidateLists: includes the resource pass with the corrected sequence test, as above.
- Pipeline.CheckDocument: includes the resource pass with the corrected sequence test, and the exclusions by position, as above.
- Floating-point comparisons become integer conditions on the OOXML units, which agree with the float results on every whole number of units:
  - indents in twips, against the 0.01 in tolerance; at 0.5 in against 0.49 in, where the exact distance equals the tolerance, the model follows the float result;
  - line spacing in 240ths of a line;
  - font sizes in half-points.
- Character classes are ASCII or explicit Cyrillic ranges. `str.isdigit`, `str.isupper`, `str.upper` and `int` have no full-Unicode behaviour here.
- `pathlib` is modelled for POSIX paths only.
- Pydantic's other field constraints on the user schema (lengths, e-mail format), `LoggerFactory` and `log_request` are outside this model.
- Docstring: `check_document_formatting` says it returns `True` when the document conforms, but the code returns `True` whenever processing completed. The model follows the code.
- Alphabet: the code lists 25 allowed appendix letters: the 33 capitals without Ё, З, Й, О, Ч, Ъ, Ы, Ь. `Structure.AlphabetShape` states it.

## Findings

| source | as written | input that shows it | evidently intended | confidence | as-written member | corrected member |
|---|---|---|---|---|---|---|
| app/utils/formatting.py:704-705 | `build_list_tree` reads `current_parents[parent_level]` when the level already has a counter, but that entry may be missing | a group that opens with two second-level items (`1.1`, `1.2`): the second raises `KeyError` | fall back to the root, as the `get` on line 702 does | not executed | ListTree.NestedStartRaises | ListTree.BuildListTree |
| app/utils/formatting.py:2590-2597 | the body-text pass skips `paragraph in excluded_paragraphs`, a set of paragraph objects from other passes' `doc.paragraphs` lists; python-docx paragraphs compare by identity, so nothing is skipped (the same holds at lines 512, 825, 1231 and 1308) | a Word-numbered list item whose first-line indent is not 0.49 in is told the body-text indent message, although the list pass claimed it | skip the paragraphs the earlier passes claimed, by position | not executed | General.ClaimedJudgedAsWritten | Pipeline.GeneralSkipsClaimed |
| app/utils/formatting.py:3299 | `doc.paragraphs.index(continuation_tracker['paragraph'])` looks up a paragraph object from the first loop's list in a fresh list, where no object equals it | `Таблица 1 – Данные` then `Продолжение таблицы 1` with no ending: `ValueError`, and `check_document_formatting` returns `False` | report the open table at the last paragraph that marked a table | not executed | Pipeline.OpenContinuationAborts | Tables.OpenReported |
| app/utils/formatting.py:534-535 | `prefix.startswith(str(ind + 1))` accepts any prefix whose digits merely begin with the expected number | `10.` at position 1 passes, since it starts with `1` | the prefix's leading number equals the position | not executed | Resources.TenPassesAsFirst | Resources.SequenceOkUnique |
