/**
 * The error records every validator produces (`add_error`) and the final removal of
 * repeated records (`remove_duplicate_errors`).
 */
module Errors {
  import opened Wrappers
  import opened Text
  import opened Messages

  /** `DocumentTextElementType`: the kind of text an error is about. */
  datatype Category = FormatCat | HeadingCat | ListCat | ListingCat | ImageCat | TextCat | TableCat | CodeCat | StructureCat

  /** `DocumentElementType`. */
  datatype ElementKind = ParagraphKind | TableKind | PictureKind

  /** What an error is attached to: a paragraph (with its raw text), a bare label, or a table. */
  datatype Element = NoElement | ParagraphElement(text: string) | LabelElement(name: string) | TableElement

  /** One error as the validators store it; the attached element itself is not kept. */
  datatype ErrorRecord = ErrorRecord(
    category: Category,
    message: string,
    paragraphText: string,
    index: int,
    elementKind: Option<ElementKind>)

  /** The enumeration values of the categories. */
  function CategoryName(c: Category): string {
    match c
    case FormatCat => "format"
    case HeadingCat => "heading"
    case ListCat => "list"
    case ListingCat => "listing"
    case ImageCat => "image"
    case TextCat => "text"
    case TableCat => "table"
    case CodeCat => "code"
    case StructureCat => "structure"
  }

  /** Keyword stems and the category they select, highest precedence first. */
  const Precedence: seq<(seq<string>, Category)> := [
    (["заголов"], HeadingCat),
    (["спис"], ListCat),
    (["листинг"], ListingCat),
    (["таблиц"], TableCat),
    (["рисунок", "изображ"], ImageCat),
    (["абзац"], TextCat),
    (["код"], CodeCat),
    (["структурн", "приложен"], StructureCat)
  ]

  predicate MentionsAny(m: string, stems: seq<string>) {
    exists k :: 0 <= k < |stems| && Contains(m, stems[k])
  }

  /** The first row of `rows` one of whose stems occurs in `m`. */
  function FirstMention(rows: seq<(seq<string>, Category)>, m: string): (j: Option<nat>)
    ensures j.Some? ==> j.value < |rows| && MentionsAny(m, rows[j.value].0)
    ensures j.Some? ==> forall i :: 0 <= i < j.value ==> !MentionsAny(m, rows[i].0)
    ensures j.None? ==> forall i :: 0 <= i < |rows| ==> !MentionsAny(m, rows[i].0)
  {
    if rows == [] then None
    else if MentionsAny(m, rows[0].0) then Some(0)
    else match FirstMention(rows[1..], m)
      case None => None
      case Some(j) => Some(j + 1)
  }

  /**
   * The category of a message: the first row of the precedence table, in order, one of
   * whose stems occurs in the lower-cased message; `format` when none occurs.
   */
  function Classify(msg: string): Category {
    match FirstMention(Precedence, Lower(msg))
    case None => FormatCat
    case Some(j) => Precedence[j].1
  }

  /**
   * A message takes the category of a row exactly when that row's stem occurs and no
   * earlier row's does: a message about a heading inside a list is a heading error.
   */
  lemma ClassifyByFirstRow(msg: string, j: nat)
    requires j < |Precedence|
    requires MentionsAny(Lower(msg), Precedence[j].0)
    requires forall i :: 0 <= i < j ==> !MentionsAny(Lower(msg), Precedence[i].0)
    ensures Classify(msg) == Precedence[j].1
  {
    FirstMentionIs(Precedence, Lower(msg), j);
  }

  lemma FirstMentionIs(rows: seq<(seq<string>, Category)>, m: string, j: nat)
    requires j < |rows| && MentionsAny(m, rows[j].0)
    requires forall i :: 0 <= i < j ==> !MentionsAny(m, rows[i].0)
    ensures FirstMention(rows, m) == Some(j)
  {
    var f := FirstMention(rows, m);
    if f.Some? && f.value < j {
      assert false;
    }
  }

  /** A message with none of the stems is a plain format error, and only such a message. */
  lemma ClassifyDefault(msg: string)
    ensures Classify(msg) == FormatCat
            <==> forall i :: 0 <= i < |Precedence| ==> !MentionsAny(Lower(msg), Precedence[i].0)
  {
    var f := FirstMention(Precedence, Lower(msg));
    if f.Some? {
      assert Precedence[f.value].1 != FormatCat;
    }
  }

  lemma OneStem(m: string, a: string)
    ensures MentionsAny(m, [a]) <==> Contains(m, a)
  {
    if Contains(m, a) {
      assert Contains(m, [a][0]);
    }
  }

  lemma TwoStems(m: string, a: string, b: string)
    ensures MentionsAny(m, [a, b]) <==> Contains(m, a) || Contains(m, b)
  {
    if Contains(m, a) {
      assert Contains(m, [a, b][0]);
    }
    if Contains(m, b) {
      assert Contains(m, [a, b][1]);
    }
  }

  /** `paragraph_text`: a paragraph's stripped text, a label as given, otherwise empty. */
  function ElementText(e: Element): string {
    match e
    case ParagraphElement(t) => Strip(t)
    case LabelElement(l) => l
    case _ => ""
  }

  /** The record `add_error` appends; a missing index is stored as -1. */
  function MakeError(msg: string, e: Element, index: Option<int>, kind: Option<ElementKind>): ErrorRecord {
    ErrorRecord(Classify(msg), msg, ElementText(e), if index.Some? then index.value else -1, kind)
  }

  /**
   * What a validator decides to report: the message, the element and the index it is
   * about. `Record` turns it into the stored record.
   */
  datatype Issue = Issue(msg: Msg, element: Element, index: Option<int>, kind: Option<ElementKind>)

  /** `add_error` for one issue: the message is spelled out and classified. */
  function Record(i: Issue): (r: ErrorRecord)
    ensures r.message == Sentence(i.msg) && r.category == Classify(Sentence(i.msg))
    ensures r.paragraphText == ElementText(i.element)
  {
    MakeError(Sentence(i.msg), i.element, i.index, i.kind)
  }

  /** The records of a sequence of issues, in order. */
  function Records(issues: seq<Issue>): (rs: seq<ErrorRecord>)
    ensures |rs| == |issues| && forall k :: 0 <= k < |issues| ==> rs[k] == Record(issues[k])
  {
    seq(|issues|, k requires 0 <= k < |issues| => Record(issues[k]))
  }

  /** An issue about the paragraph at `index` whose raw text is `text`. */
  function ParagraphIssue(text: string, index: int, m: Msg): Issue {
    Issue(m, ParagraphElement(text), Some(index), Some(ParagraphKind))
  }

  /** One issue per message, all about the same paragraph, in message order. */
  function ParagraphIssues(text: string, index: int, msgs: seq<Msg>): (issues: seq<Issue>)
    ensures |issues| == |msgs|
    ensures forall k :: 0 <= k < |msgs| ==> issues[k] == ParagraphIssue(text, index, msgs[k])
  {
    seq(|msgs|, k requires 0 <= k < |msgs| => ParagraphIssue(text, index, msgs[k]))
  }

  /**
   * The issues of a pass that goes through the paragraphs in order and tells the one at
   * position `j`, whose raw text is `texts[j]`, the messages `told[j]`: the first `n` of them.
   */
  function PassIssues(texts: seq<string>, told: seq<seq<Msg>>, n: nat): seq<Issue>
    requires n <= |texts| && n <= |told|
  {
    if n == 0 then [] else PassIssues(texts, told, n - 1) + ParagraphIssues(texts[n - 1], n - 1, told[n - 1])
  }

  lemma PassIssuesExtend(texts: seq<string>, told: seq<seq<Msg>>, n: nat, before: seq<Issue>, msgs: seq<Msg>)
    requires 0 < n <= |texts| && n <= |told|
    requires PassIssues(texts, told, n - 1) == before && told[n - 1] == msgs
    ensures PassIssues(texts, told, n) == before + ParagraphIssues(texts[n - 1], n - 1, msgs)
  {
  }

  /** Every issue of such a pass is one of the messages told to a paragraph before `n`, about that paragraph. */
  lemma {:induction false} PassIssuesSound(texts: seq<string>, told: seq<seq<Msg>>, n: nat, k: nat)
    requires n <= |texts| && n <= |told| && k < |PassIssues(texts, told, n)|
    ensures var e := PassIssues(texts, told, n)[k];
      e.index.Some? && 0 <= e.index.value < n && e.msg in told[e.index.value]
      && e == ParagraphIssue(texts[e.index.value], e.index.value, e.msg)
  {
    var before := PassIssues(texts, told, n - 1);
    var last := ParagraphIssues(texts[n - 1], n - 1, told[n - 1]);
    if k < |before| {
      PassIssuesSound(texts, told, n - 1, k);
    } else {
      assert PassIssues(texts, told, n)[k] == last[k - |before|];
    }
  }

  /** Every message told to a paragraph before `n` is among the issues, about that paragraph. */
  lemma {:induction false} PassIssuesComplete(texts: seq<string>, told: seq<seq<Msg>>, n: nat, j: nat, m: Msg)
    requires j < n <= |texts| && n <= |told| && m in told[j]
    ensures ParagraphIssue(texts[j], j, m) in PassIssues(texts, told, n)
  {
    var last := ParagraphIssues(texts[n - 1], n - 1, told[n - 1]);
    if j < n - 1 {
      PassIssuesComplete(texts, told, n - 1, j, m);
    } else {
      var q :| 0 <= q < |told[j]| && told[j][q] == m;
      assert last[q] == ParagraphIssue(texts[j], j, m);
    }
  }

  predicate NoDuplicates<T(==)>(s: seq<T>) {
    forall i, j :: 0 <= i < j < |s| ==> s[i] != s[j]
  }

  /** Keeps the first occurrence of every record, in order. */
  function Dedup<T(==)>(s: seq<T>): seq<T> {
    if s == [] then []
    else if s[|s| - 1] in s[..|s| - 1] then Dedup(s[..|s| - 1])
    else Dedup(s[..|s| - 1]) + [s[|s| - 1]]
  }

  /** Removing repeats keeps every record and adds none. */
  lemma {:induction false} DedupSameElements<T>(s: seq<T>)
    ensures forall x :: x in Dedup(s) <==> x in s
  {
    if s != [] {
      DedupSameElements(s[..|s| - 1]);
      assert s == s[..|s| - 1] + [s[|s| - 1]];
    }
  }

  /** After removing repeats no record occurs twice. */
  lemma {:induction false} DedupNoDuplicates<T>(s: seq<T>)
    ensures NoDuplicates(Dedup(s))
  {
    if s != [] {
      DedupNoDuplicates(s[..|s| - 1]);
      DedupSameElements(s[..|s| - 1]);
    }
  }

  /** A list without repeats is left as it is. */
  lemma {:induction false} DedupOfDistinct<T>(s: seq<T>)
    requires NoDuplicates(s)
    ensures Dedup(s) == s
  {
    if s != [] {
      var init := s[..|s| - 1];
      assert s[|s| - 1] !in init by {
        forall i | 0 <= i < |init| ensures init[i] != s[|s| - 1] {
          assert init[i] == s[i];
        }
      }
      DedupOfDistinct(init);
      assert init + [s[|s| - 1]] == s;
    }
  }

  /** Removing repeats twice is the same as once. */
  lemma DedupIdempotent<T>(s: seq<T>)
    ensures Dedup(Dedup(s)) == Dedup(s)
  {
    DedupNoDuplicates(s);
    DedupOfDistinct(Dedup(s));
  }

  /** The position of the first occurrence of `x`. */
  function FirstIndex<T(==)>(s: seq<T>, x: T): (i: nat)
    requires x in s
    ensures i < |s| && s[i] == x && x !in s[..i]
  {
    if s[0] == x then 0
    else
      var i := FirstIndex(s[1..], x);
      assert s[1..][..i] == s[1..i + 1];
      assert s[..i + 1] == [s[0]] + s[1..i + 1];
      i + 1
  }

  /** First occurrences keep their relative order: the result follows the input's order. */
  lemma {:induction false} DedupOrder<T>(s: seq<T>, i: nat, j: nat)
    requires i < j < |Dedup(s)|
    ensures Dedup(s)[i] in s && Dedup(s)[j] in s
    ensures FirstIndex(s, Dedup(s)[i]) < FirstIndex(s, Dedup(s)[j])
    decreases |s|
  {
    DedupSameElements(s);
    var init := s[..|s| - 1];
    var last := s[|s| - 1];
    DedupSameElements(init);
    var d := Dedup(s);
    assert d[i] in d && d[j] in d;
    if last in init {
      DedupOrder(init, i, j);
      FirstIndexInPrefix(s, init, d[i]);
      FirstIndexInPrefix(s, init, d[j]);
    } else if j < |Dedup(init)| {
      DedupOrder(init, i, j);
      FirstIndexInPrefix(s, init, d[i]);
      FirstIndexInPrefix(s, init, d[j]);
    } else {
      assert j == |Dedup(init)| && d == Dedup(init) + [last];
      assert d[j] == last;
      DedupElement(init, i);
      assert d[i] == Dedup(init)[i];
      FirstIndexInPrefix(s, init, d[i]);
      assert FirstIndex(s, last) == |s| - 1 by {
        if FirstIndex(s, last) < |s| - 1 {
          assert false;
        }
      }
    }
  }

  lemma DedupElement<T>(s: seq<T>, i: nat)
    requires i < |Dedup(s)|
    ensures Dedup(s)[i] in s
  {
    DedupSameElements(s);
    assert Dedup(s)[i] in Dedup(s);
  }

  lemma FirstIndexInPrefix<T>(s: seq<T>, init: seq<T>, x: T)
    requires |s| > 0 && init == s[..|s| - 1] && x in init
    ensures x in s && FirstIndex(s, x) == FirstIndex(init, x)
  {
    FirstIndexPrefix(s, |s| - 1, x);
  }

  lemma {:induction false} FirstIndexPrefix<T>(s: seq<T>, n: nat, x: T)
    requires n <= |s| && x in s[..n]
    ensures x in s && FirstIndex(s, x) == FirstIndex(s[..n], x)
    decreases |s|
  {
    assert s[..n][0] == s[0];
    if s[0] != x {
      assert s[..n][1..] == s[1..][..n - 1];
      FirstIndexPrefix(s[1..], n - 1, x);
    }
  }

  /**
   * `remove_duplicate_errors`: walks the errors once, remembering the records already
   * seen, and keeps each record's first occurrence.
   */
  method RemoveDuplicates(errors: seq<ErrorRecord>) returns (unique: seq<ErrorRecord>)
    ensures unique == Dedup(errors)
    ensures NoDuplicates(unique)
    ensures forall e :: e in unique <==> e in errors
  {
    var seen: set<ErrorRecord> := {};
    unique := [];
    for i := 0 to |errors|
      invariant unique == Dedup(errors[..i])
      invariant seen == set e | e in errors[..i]
    {
      assert errors[..i + 1][..i] == errors[..i];
      assert errors[..i + 1][i] == errors[i];
      if errors[i] !in seen {
        seen := seen + {errors[i]};
        unique := unique + [errors[i]];
      }
      assert errors[..i + 1] == errors[..i] + [errors[i]];
    }
    assert errors[..|errors|] == errors;
    DedupNoDuplicates(errors);
    DedupSameElements(errors);
  }
}
