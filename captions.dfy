/**
 * What the table pass and the figure pass share about a caption: its number in the main
 * body (`X` or `Y.X`) or in an appendix (`Y.X` with a letter `Y`), the letter of an
 * appendix title, the two numbering formats of the main body, and the trailing
 * punctuation they both forbid.
 */
module Captions {
  import opened Wrappers
  import opened Text
  import opened Patterns
  import Structure

  /** The two groups of `re.match(r'([А-Я])\.(\d+)', s)`: the letter and the number after the dot. */
  datatype LetterNumber = LetterNumber(letter: string, value: nat)

  function LetterNumberMatch(s: string): (m: Option<LetterNumber>)
    ensures m.Some? ==> |s| >= 3 && m.value.letter == s[..1] && IsRuUpper(s[0])
  {
    if |s| >= 3 && IsRuUpper(s[0]) && s[1] == '.' && IsDigit(s[2]) then
      var d := LeadingDigits(s[2..]);
      assert forall k :: 0 <= k < d ==> s[2..][..d][k] == s[2..][k];
      Some(LetterNumber(s[..1], DigitsValue(s[2..][..d])))
    else None
  }

  /**
   * A main-body caption number and its parts, `[int(x) for x in number.split('.')]`. The
   * pattern allows at most one dot and no letter, so the checks for a number nested
   * deeper than Y.X and for an appendix number outside an appendix never fire.
   */
  datatype MainNumber = MainNumber(number: string, parts: seq<nat>)

  /** An appendix caption number and what the letter pattern finds in it (always something). */
  datatype AppendixNumber = AppendixNumber(number: string, ref: Option<LetterNumber>)

  /** `text[len("Приложение "):].strip()` when the text is longer than that, if it is an allowed letter. */
  function ValidLetter(t: string): (l: Option<string>)
    ensures l.Some? ==> Structure.LetterOk(l.value)
  {
    if |t| > 11 && Structure.LetterOk(Strip(t[11..])) then Some(Strip(t[11..])) else None
  }

  /** `text.endswith(('.', ',', '!', '?', '/', '-', ';', ':'))`. */
  predicate EndsWithPunct(t: string) {
    |t| > 0 && t[|t| - 1] in ".,!?/-;:"
  }

  /** `re.fullmatch(word + r' (\d+(?:\.\d+)?) – ([А-Я].*)', text)`, with the parts of the number. */
  function MainNumberOf(t: string, word: string): (m: Option<MainNumber>)
    ensures m.Some? ==> 1 <= |m.value.parts| <= 2 && LetterNumberMatch(m.value.number).None?
  {
    match CaptionMatch(t, word, false)
    case None => None
    case Some(c) => Some(MainNumber(c.number, NumberParts(c.number)))
  }

  /** `re.fullmatch(word + r' ([А-Я]\.\d+) – ([А-Я].*)', text)`, with what the letter pattern finds in the number. */
  function AppendixNumberOf(t: string, word: string): (a: Option<AppendixNumber>)
    ensures a.Some? ==> |a.value.number| >= 3 && a.value.ref.Some? && a.value.ref.value.letter == a.value.number[..1]
  {
    match CaptionMatch(t, word, true)
    case None => None
    case Some(c) => Some(AppendixNumber(c.number, LetterNumberMatch(c.number)))
  }

  /** The two numbering formats of the main body: X and Y.X. */
  datatype Format = Sequential | Sectioned

  function FormatOf(m: MainNumber): Format {
    if |m.parts| == 1 then Sequential else Sectioned
  }

  /** `f"{current_heading}.{section_numbers[current_heading]}"`. */
  function SectionLabel(h: nat, k: nat): string {
    NatToString(h) + "." + NatToString(k)
  }
}
