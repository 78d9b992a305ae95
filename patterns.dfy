/**
 * The regular expressions of the validators, each written out as the match it performs
 * (`re.match` anchors at the start, `re.fullmatch` at both ends; `\s` is whitespace,
 * `\d` an ASCII digit, `.` any character but a newline, `[а-я]`/`[А-Я]` the basic Cyrillic
 * ranges, which do not contain ё/Ё).
 */
module Patterns {
  import opened Wrappers
  import opened Text

  /** `[а-я]`. */
  predicate IsRuLower(c: char) {
    'а' <= c <= 'я'
  }

  /** `[А-Я]`. */
  predicate IsRuUpper(c: char) {
    'А' <= c <= 'Я'
  }

  /** Length of the longest prefix of ASCII digits. */
  function LeadingDigits(s: string): (n: nat)
    ensures n <= |s|
    ensures forall k :: 0 <= k < n ==> IsDigit(s[k])
    ensures n < |s| ==> !IsDigit(s[n])
  {
    if |s| > 0 && IsDigit(s[0]) then 1 + LeadingDigits(s[1..]) else 0
  }

  /** Length of the longest whitespace prefix. */
  function LeadingSpaces(s: string): (n: nat)
    ensures n <= |s|
    ensures forall k :: 0 <= k < n ==> IsSpace(s[k])
    ensures n < |s| ==> !IsSpace(s[n])
  {
    if |s| > 0 && IsSpace(s[0]) then 1 + LeadingSpaces(s[1..]) else 0
  }

  /** What a greedy `.*` matches: the characters before the first newline. */
  function Line(s: string): (r: string)
    ensures |r| <= |s| && r == s[..|r|]
    ensures !HasChar(r, '\n')
    ensures |r| < |s| ==> s[|r|] == '\n'
  {
    if |s| > 0 && s[0] != '\n' then [s[0]] + Line(s[1..]) else ""
  }

  /**
   * Length of the longest prefix matching `\d+(?:\.\d+)*`, 0 when there is none. Any
   * shorter match is followed by a digit or by a dot, which no pattern here accepts after it.
   */
  function NumberToken(s: string): (n: nat)
    ensures n <= |s|
    ensures n == 0 <==> (s == [] || !IsDigit(s[0]))
    ensures n > 0 ==> IsDigit(s[n - 1])
    ensures n < |s| ==> !IsDigit(s[n])
    ensures n > 0 && n < |s| && s[n] == '.' ==> n + 1 == |s| || !IsDigit(s[n + 1])
    ensures TokenChars(s[..n])
    decreases |s|
  {
    var d := LeadingDigits(s);
    if d == 0 then 0
    else if d + 1 < |s| && s[d] == '.' && IsDigit(s[d + 1]) then
      var n := NumberToken(s[d + 1..]);
      TokenGrows(s, d, n);
      d + 1 + n
    else d
  }

  /** Digits and a dot before a token make a token. */
  lemma TokenGrows(s: string, d: nat, n: nat)
    requires d + 1 < |s| && s[d] == '.' && forall k :: 0 <= k < d ==> IsDigit(s[k])
    requires var t := s[d + 1..];
      && 0 < n <= |t| && IsDigit(t[n - 1]) && (n < |t| ==> !IsDigit(t[n]))
      && (n < |t| && t[n] == '.' ==> n + 1 == |t| || !IsDigit(t[n + 1]))
      && TokenChars(t[..n])
    ensures var m := d + 1 + n;
      && m <= |s| && IsDigit(s[m - 1]) && (m < |s| ==> !IsDigit(s[m]))
      && (m < |s| && s[m] == '.' ==> m + 1 == |s| || !IsDigit(s[m + 1]))
      && TokenChars(s[..m])
  {
    var t := s[d + 1..];
    assert s[..d + 1 + n] == s[..d + 1] + t[..n];
  }

  /** `[int(x) for x in token.split('.')]` for a token matched by `\d+(?:\.\d+)*`. */
  function NumberParts(tok: string): (parts: seq<nat>)
    requires TokenChars(tok)
    ensures |parts| == CountChar(tok, '.') + 1
    decreases |tok|
  {
    var d := LeadingDigits(tok);
    if d == |tok| then
      NoDotInDigitsOrEmpty(tok);
      [DigitsValue(tok)]
    else
      NoDotInDigitsOrEmpty(tok[..d]);
      assert tok == tok[..d] + ([tok[d]] + tok[d + 1..]);
      CountAppend(tok[..d], [tok[d]] + tok[d + 1..], '.');
      CountAppend([tok[d]], tok[d + 1..], '.');
      [DigitsValue(tok[..d])] + NumberParts(tok[d + 1..])
  }

  lemma NoDotInDigitsOrEmpty(s: string)
    requires forall k :: 0 <= k < |s| ==> IsDigit(s[k])
    ensures CountChar(s, '.') == 0
  {
    if s != [] {
      NoDotInDigits(s);
    }
  }

  /** What may follow a number token without extending it: not a digit, nor a dot and a digit. */
  predicate EndsToken(rest: string) {
    rest == [] || (!IsDigit(rest[0]) && (rest[0] == '.' ==> |rest| == 1 || !IsDigit(rest[1])))
  }

  /** A written-out dotted number is read back as one token, whatever ends it. */
  lemma {:induction false} JoinDotsToken(nums: seq<nat>, rest: string)
    requires |nums| > 0 && EndsToken(rest)
    ensures NumberToken(JoinDots(nums) + rest) == |JoinDots(nums)|
    decreases |nums|
  {
    var head := NatToString(nums[0]);
    if |nums| == 1 {
      TokenSingle(head, rest);
    } else {
      var tail := JoinDots(nums[1..]);
      JoinDotsToken(nums[1..], rest);
      assert JoinDots(nums) == head + "." + tail;
      TokenPrepend(head, tail, rest);
    }
  }

  lemma TokenPrepend(head: string, tail: string, rest: string)
    requires AllDigits(head) && |tail| > 0 && IsDigit(tail[0])
    requires NumberToken(tail + rest) == |tail|
    ensures NumberToken(head + "." + tail + rest) == |head + "." + tail|
  {
    assert head + "." + tail + rest == head + "." + (tail + rest);
    assert (tail + rest)[0] == tail[0];
    TokenStep(head, tail + rest);
  }

  /** Splitting a written-out dotted number gives the numbers back. */
  lemma {:induction false} JoinDotsParts(nums: seq<nat>)
    requires |nums| > 0
    ensures NumberParts(JoinDots(nums)) == nums
    decreases |nums|
  {
    if |nums| == 1 {
      NatToStringRoundTrip(nums[0]);
      PartsSingle(NatToString(nums[0]));
    } else {
      JoinDotsParts(nums[1..]);
      JoinedPartsStep(nums);
    }
  }

  lemma JoinedPartsStep(nums: seq<nat>)
    requires |nums| > 1 && NumberParts(JoinDots(nums[1..])) == nums[1..]
    ensures NumberParts(JoinDots(nums)) == nums
  {
    assert [nums[0]] + nums[1..] == nums;
    var head := NatToString(nums[0]);
    JoinDotsCons(nums);
    PartsStep(head, JoinDots(nums[1..]));
    NatToStringRoundTrip(nums[0]);
  }

  lemma JoinDotsCons(nums: seq<nat>)
    requires |nums| > 1
    ensures JoinDots(nums) == NatToString(nums[0]) + "." + JoinDots(nums[1..])
  {
  }

  lemma PartsSingle(digits: string)
    requires AllDigits(digits)
    ensures NumberParts(digits) == [DigitsValue(digits)]
  {
    DigitsThen(digits, "");
    assert digits + "" == digits;
  }

  lemma TokenSingle(head: string, rest: string)
    requires AllDigits(head) && EndsToken(rest)
    ensures NumberToken(head + rest) == |head|
  {
    DigitsThen(head, rest);
    var s := head + rest;
    if |head| + 1 < |s| {
      assert s[|head|] == rest[0] && s[|head| + 1] == rest[1];
    }
  }

  lemma TokenStep(head: string, tail: string)
    requires AllDigits(head) && |tail| > 0 && IsDigit(tail[0])
    ensures NumberToken(head + "." + tail) == |head| + 1 + NumberToken(tail)
  {
    HeadDot(head, tail);
    assert (head + "." + tail)[|head| + 1] == tail[0];
    TokenUnfold(head + "." + tail, |head|);
  }

  /** Digits and a dot: the digits are the leading run, and the dot is followed by the rest. */
  lemma HeadDot(head: string, tail: string)
    requires AllDigits(head)
    ensures var s := head + "." + tail;
      LeadingDigits(s) == |head| && |head| < |s| && s[|head|] == '.' && s[..|head|] == head && s[|head| + 1..] == tail
  {
    var s := head + "." + tail;
    assert s == head + ("." + tail);
    DigitsThen(head, "." + tail);
  }

  /** A token that goes on past a dot: its digits, the dot, and the token after it. */
  lemma TokenUnfold(s: string, d: nat)
    requires d == LeadingDigits(s) && d > 0 && d + 1 < |s| && s[d] == '.' && IsDigit(s[d + 1])
    ensures NumberToken(s) == d + 1 + NumberToken(s[d + 1..])
  {
  }

  lemma PartsStep(head: string, tail: string)
    requires AllDigits(head) && TokenChars(tail)
    ensures TokenChars(head + "." + tail)
    ensures NumberParts(head + "." + tail) == [DigitsValue(head)] + NumberParts(tail)
  {
    HeadDot(head, tail);
    DotJoinedChars(head, tail);
    PartsUnfold(head + "." + tail, |head|);
  }

  lemma DotJoinedChars(head: string, tail: string)
    requires AllDigits(head) && TokenChars(tail)
    ensures TokenChars(head + "." + tail)
  {
  }

  /** Splitting a token that goes on past its leading digits. */
  lemma PartsUnfold(s: string, d: nat)
    requires TokenChars(s) && d == LeadingDigits(s) && d < |s| && TokenChars(s[d + 1..])
    ensures NumberParts(s) == [DigitsValue(s[..d])] + NumberParts(s[d + 1..])
  {
  }

  lemma {:induction false} DigitsThen(digits: string, rest: string)
    requires AllDigits(digits)
    requires rest == [] || !IsDigit(rest[0])
    ensures LeadingDigits(digits + rest) == |digits|
    decreases |digits|
  {
    if |digits| > 1 {
      assert (digits + rest)[1..] == digits[1..] + rest;
      DigitsThen(digits[1..], rest);
    } else {
      assert (digits + rest)[1..] == rest;
    }
  }

  /**
   * `\s+(.+)` at the start of `s`: the text matched by `(.+)`. The greedy `\s+` gives
   * characters back only when `s` is all whitespace, and then `(.+)` needs a non-newline.
   */
  function SpacesThenLine(s: string): Option<string> {
    var w := LeadingSpaces(s);
    if w == 0 then None
    else if w < |s| then Some(Line(s[w..]))
    else LineFromSpaceAtOrBefore(s, w - 1)
  }

  function LineFromSpaceAtOrBefore(s: string, k: nat): Option<string>
    requires k < |s|
    decreases k
  {
    if k == 0 then None
    else if s[k] != '\n' then Some(Line(s[k..]))
    else LineFromSpaceAtOrBefore(s, k - 1)
  }

  /** The two groups of `^(\d+(?:\.\d+)*)\s+(.+)`. */
  datatype NumberedTitle = NumberedTitle(number: string, title: string)

  /** `re.match(r'^(\d+(?:\.\d+)*)\s+(.+)', s)`: a heading number, whitespace, then text. */
  function HeadingMatch(s: string): (m: Option<NumberedTitle>)
    ensures m.Some? ==> |m.value.number| > 0 && TokenChars(m.value.number)
    ensures m.Some? ==> StartsWith(s, m.value.number) && |m.value.number| < |s| && IsSpace(s[|m.value.number|])
  {
    var n := NumberToken(s);
    if n == 0 then None
    else
      match SpacesThenLine(s[n..])
      case None => None
      case Some(t) => Some(NumberedTitle(s[..n], t))
  }

  /** `re.match(r'^(\d+)\s+(.+)', s)`: a chapter number, whitespace, then text; the number. */
  function ChapterHeadingMatch(s: string): (m: Option<nat>)
    ensures m.Some? ==> LeadingDigits(s) > 0 && LeadingDigits(s) < |s| && IsSpace(s[LeadingDigits(s)])
  {
    var d := LeadingDigits(s);
    if d == 0 then None
    else
      match SpacesThenLine(s[d..])
      case None => None
      case Some(_) => Some(DigitsValue(s[..d]))
  }

  /** `re.match(r'^\d+(?:\.\d+)*\s+.*', s)`: the shape of a numbered heading. */
  predicate HeadingShape(s: string) {
    var n := NumberToken(s);
    n > 0 && n < |s| && IsSpace(s[n])
  }

  /** `re.match(r'^\d+(?:\.\d+)*\s{2,}', s)`: two or more whitespace characters after the number. */
  predicate WideGapAfterNumber(s: string) {
    var n := NumberToken(s);
    n > 0 && n + 1 < |s| && IsSpace(s[n]) && IsSpace(s[n + 1])
  }

  /** `re.search(r' {2,}', s)`: two consecutive spaces. */
  predicate HasDoubleSpace(s: string) {
    Contains(s, "  ")
  }

  /** The item a hand-typed list marker produces: its prefix and its text. */
  datatype ManualItem = ManualItem(prefix: string, text: string)

  /**
   * `re.match(r'(\d+|[а-я])[.\)]\s*(.*)', s)`. The prefix is the marker followed by the
   * last character of the whole match, and the text is the stripped `(.*)` group.
   */
  function ManualListMatch(s: string): (m: Option<ManualItem>)
    ensures m.Some? ==> |m.value.prefix| >= 2
  {
    var d := LeadingDigits(s);
    var mark := if d > 0 then d else if |s| > 0 && IsRuLower(s[0]) then 1 else 0;
    if mark == 0 || mark >= |s| || !(s[mark] == '.' || s[mark] == ')') then None
    else
      var w := LeadingSpaces(s[mark + 1..]);
      var rest := Line(s[mark + 1 + w..]);
      var whole := s[..mark + 1 + w + |rest|];
      Some(ManualItem(s[..mark] + [whole[|whole| - 1]], Strip(rest)))
  }

  /**
   * `re.match(r'(\d+(?:\.\d+)*[.\)]?|[а-я]\))\s*(.*)', s)`: the `(.*)` group after a
   * number or letter marker typed at the start of a Word-numbered paragraph.
   */
  function NumberedContent(s: string): Option<string> {
    var n := NumberToken(s);
    if n > 0 then
      var m := if n < |s| && (s[n] == '.' || s[n] == ')') then n + 1 else n;
      Some(Line(s[m + LeadingSpaces(s[m..])..]))
    else if |s| >= 2 && IsRuLower(s[0]) && s[1] == ')' then
      Some(Line(s[2 + LeadingSpaces(s[2..])..]))
    else None
  }

  /**
   * `re.match(r'^([-–—•]|\d+(?:[.\)]\s|\s)|[а-я][.\)]\s).*', s)`: a paragraph typed as a
   * list item (dash or bullet, a number with `.`/`)` and a space, or a letter with one).
   */
  predicate TextualMarker(s: string) {
    (|s| > 0 && (s[0] == '-' || s[0] == '–' || s[0] == '—' || s[0] == '•'))
    || (var d := LeadingDigits(s);
        d > 0 && d < |s| && (IsSpace(s[d]) || ((s[d] == '.' || s[d] == ')') && d + 1 < |s| && IsSpace(s[d + 1]))))
    || (|s| >= 3 && IsRuLower(s[0]) && (s[1] == '.' || s[1] == ')') && IsSpace(s[2]))
  }

  /** The two groups of a caption: its number and its name. */
  datatype Caption = Caption(number: string, name: string)

  /**
   * Length of the caption number at the start of `s`: `\d+(?:\.\d+)?` in the main body,
   * `[А-Я]\.\d+` inside an appendix; 0 when there is none.
   */
  function CaptionNumberLen(s: string, inAppendix: bool): (n: nat)
    ensures n <= |s|
    ensures n > 0 && !inAppendix ==> IsDigit(s[0]) && TokenChars(s[..n]) && CountChar(s[..n], '.') <= 1
    ensures n > 0 && inAppendix ==> n >= 3 && IsRuUpper(s[0]) && s[1] == '.' && AllDigits(s[2..n])
  {
    if inAppendix then AppendixNumberLen(s) else MainNumberLen(s)
  }

  /** `[А-Я]\.\d+`. */
  function AppendixNumberLen(s: string): (n: nat)
    ensures n <= |s|
    ensures n > 0 ==> n >= 3 && IsRuUpper(s[0]) && s[1] == '.' && AllDigits(s[2..n])
  {
    if |s| >= 3 && IsRuUpper(s[0]) && s[1] == '.' && LeadingDigits(s[2..]) > 0 then
      DigitsAfter(s, 2);
      2 + LeadingDigits(s[2..])
    else 0
  }

  /** The digits that start at `i`. */
  lemma DigitsAfter(s: string, i: nat)
    requires i <= |s| && LeadingDigits(s[i..]) > 0
    ensures AllDigits(s[i..i + LeadingDigits(s[i..])])
  {
    var k := LeadingDigits(s[i..]);
    var r := s[i..i + k];
    forall j | 0 <= j < k
      ensures IsDigit(r[j])
    {
      assert r[j] == s[i..][j];
    }
  }

  /** `\d+(?:\.\d+)?`. */
  function MainNumberLen(s: string): (n: nat)
    ensures n <= |s|
    ensures n > 0 ==> IsDigit(s[0]) && TokenChars(s[..n]) && CountChar(s[..n], '.') <= 1
  {
    var d := LeadingDigits(s);
    if d == 0 then 0
    else if d + 1 < |s| && s[d] == '.' && IsDigit(s[d + 1]) then
      var e := LeadingDigits(s[d + 1..]);
      DottedPair(s[..d], s[d + 1..][..e]);
      assert s[..d + 1 + e] == s[..d] + "." + s[d + 1..][..e];
      d + 1 + e
    else
      NoDotInDigits(s[..d]);
      d
  }

  lemma DottedPair(a: string, b: string)
    requires AllDigits(a) && AllDigits(b)
    ensures TokenChars(a + "." + b) && CountChar(a + "." + b, '.') == 1
  {
    NoDotInDigits(a);
    NoDotInDigits(b);
    CountAppend(a, ".", '.');
    CountAppend(a + ".", b, '.');
  }

  const Dash: string := " – "

  /**
   * `re.fullmatch(word + r' (<number>) – ([А-Я].*)', s)` for table and figure captions:
   * the word, a space, the number, a spaced en dash, and a name that starts with a
   * capital and holds no newline.
   */
  function CaptionMatch(s: string, word: string, inAppendix: bool): (m: Option<Caption>)
    ensures m.Some? ==> s == word + " " + m.value.number + Dash + m.value.name
    ensures m.Some? ==> StartsWith(s, word + " ")
    ensures m.Some? ==> |m.value.name| > 0 && IsRuUpper(m.value.name[0]) && !HasChar(m.value.name, '\n')
    ensures m.Some? && !inAppendix ==>
              |m.value.number| > 0 && IsDigit(m.value.number[0]) && TokenChars(m.value.number)
              && CountChar(m.value.number, '.') <= 1
    ensures m.Some? && inAppendix ==>
              |m.value.number| >= 3 && IsRuUpper(m.value.number[0]) && m.value.number[1] == '.'
              && AllDigits(m.value.number[2..])
  {
    var head := word + " ";
    if !StartsWith(s, head) then None
    else
      var rest := s[|head|..];
      var n := CaptionNumberLen(rest, inAppendix);
      if n == 0 || !StartsWith(rest[n..], Dash) then None
      else
        var name := rest[n + |Dash|..];
        if |name| > 0 && IsRuUpper(name[0]) && !HasChar(name, '\n') then
          CaptionParts(s, head, rest, n, name);
          Some(Caption(rest[..n], name))
        else None
  }

  lemma CaptionParts(s: string, head: string, rest: string, n: nat, name: string)
    requires StartsWith(s, head) && rest == s[|head|..]
    requires n <= |rest| && StartsWith(rest[n..], Dash) && name == rest[n + |Dash|..]
    ensures s == head + rest[..n] + Dash + name
  {
    assert s == head + rest;
    assert rest[n..] == Dash + name;
    assert rest == rest[..n] + rest[n..];
  }

  /** `re.match(r'Листинг (\d+(?:\.\d+)?) – (.+)', s)`: the listing name, up to a newline. */
  function ListingMatch(s: string): (name: Option<string>)
    ensures name.Some? ==> |name.value| > 0 && !HasChar(name.value, '\n')
  {
    var head := "Листинг ";
    if !StartsWith(s, head) then None
    else
      var rest := s[|head|..];
      var n := CaptionNumberLen(rest, false);
      if n == 0 || !StartsWith(rest[n..], Dash) then None
      else
        var name := Line(rest[n + |Dash|..]);
        if |name| > 0 then Some(name) else None
  }

  /**
   * `re.fullmatch(head + r'((?:\d+(?:\.\d+)*|[А-Я]\.\d+))', s)` for "Продолжение таблицы "
   * and "Окончание таблицы ": the referenced table number.
   */
  function ContinuationMatch(s: string, head: string): (ref: Option<string>)
    ensures ref.Some? ==> s == head + ref.value && |ref.value| > 0
  {
    if !StartsWith(s, head) then None
    else
      var rest := s[|head|..];
      assert s == head + rest;
      if (|rest| > 0 && NumberToken(rest) == |rest|)
         || (|rest| >= 3 && IsRuUpper(rest[0]) && rest[1] == '.' && AllDigits(rest[2..]))
      then Some(rest)
      else None
  }
}
