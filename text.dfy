/**
 * The Python `str` operations the validators rely on, stated over Dafny strings
 * (sequences of Unicode scalar values, which is what Python's `len` and indexing count).
 */
module Text {

  /** `str.isspace` for a single character: the whitespace set of Python 3. */
  predicate IsSpace(c: char) {
    c == ' ' || ('\t' <= c <= '\r') || ('\U{1c}' <= c <= '\U{1f}') || c == '\U{85}' || c == '\U{a0}'
    || c == '\U{1680}' || ('\U{2000}' <= c <= '\U{200a}') || c == '\U{2028}' || c == '\U{2029}'
    || c == '\U{202f}' || c == '\U{205f}' || c == '\U{3000}'
  }

  /** Every character is whitespace (so `s.strip()` is empty). */
  predicate Blank(s: string) {
    forall k :: 0 <= k < |s| ==> IsSpace(s[k])
  }

  /** `s.lstrip()`: drops leading whitespace. */
  function StripLeft(s: string): (r: string)
    ensures |r| <= |s|
  {
    if |s| > 0 && IsSpace(s[0]) then StripLeft(s[1..]) else s
  }

  /** `s.rstrip()`: drops trailing whitespace. */
  function StripRight(s: string): (r: string)
    ensures |r| <= |s|
  {
    if |s| > 0 && IsSpace(s[|s| - 1]) then StripRight(s[..|s| - 1]) else s
  }

  /** `s.strip()`: the text without surrounding whitespace. */
  function Strip(s: string): (r: string)
    ensures |r| <= |s|
  {
    StripRight(StripLeft(s))
  }

  /** Stripping leaves nothing exactly when the text is all whitespace. */
  lemma {:induction false} StripEmpty(s: string)
    ensures Strip(s) == [] <==> Blank(s)
  {
    StripLeftEmpty(s);
    StripRightEmpty(StripLeft(s));
    StripLeftStarts(s);
  }

  lemma {:induction false} StripLeftEmpty(s: string)
    ensures StripLeft(s) == [] <==> Blank(s)
    decreases |s|
  {
    if |s| > 0 && IsSpace(s[0]) {
      StripLeftEmpty(s[1..]);
      assert Blank(s) <==> Blank(s[1..]) by {
        if Blank(s[1..]) {
          forall k | 0 <= k < |s| ensures IsSpace(s[k]) {
            if k > 0 { assert s[k] == s[1..][k - 1]; }
          }
        }
      }
    }
  }

  lemma {:induction false} StripRightEmpty(s: string)
    ensures StripRight(s) == [] <==> Blank(s)
    decreases |s|
  {
    if |s| > 0 && IsSpace(s[|s| - 1]) {
      StripRightEmpty(s[..|s| - 1]);
      assert Blank(s) <==> Blank(s[..|s| - 1]) by {
        if Blank(s[..|s| - 1]) {
          forall k | 0 <= k < |s| ensures IsSpace(s[k]) {
            if k < |s| - 1 { assert s[k] == s[..|s| - 1][k]; }
          }
        }
      }
    }
  }

  lemma {:induction false} StripLeftStarts(s: string)
    ensures StripLeft(s) != [] ==> !IsSpace(StripLeft(s)[0])
    decreases |s|
  {
    if |s| > 0 && IsSpace(s[0]) {
      StripLeftStarts(s[1..]);
    }
  }

  /** `s.lstrip(chars)` for an explicit character set. */
  function StripLeftChars(s: string, cs: set<char>): (r: string)
    ensures |r| <= |s| && r == s[|s| - |r|..]
    ensures r == [] || r[0] !in cs
  {
    if |s| > 0 && s[0] in cs then StripLeftChars(s[1..], cs) else s
  }

  /** `s.rstrip(chars)` for an explicit character set. */
  function StripRightChars(s: string, cs: set<char>): (r: string)
    ensures |r| <= |s| && r == s[..|r|]
    ensures r == [] || r[|r| - 1] !in cs
  {
    if |s| > 0 && s[|s| - 1] in cs then StripRightChars(s[..|s| - 1], cs) else s
  }

  predicate StartsWith(s: string, p: string) {
    |p| <= |s| && s[..|p|] == p
  }

  predicate EndsWith(s: string, p: string) {
    |p| <= |s| && s[|s| - |p|..] == p
  }

  /** `sub in s` for strings. */
  predicate Contains(s: string, sub: string)
    decreases |s|
  {
    StartsWith(s, sub) || (|s| > 0 && Contains(s[1..], sub))
  }

  /** `c in s` for a single character. */
  predicate HasChar(s: string, c: char) {
    exists k :: 0 <= k < |s| && s[k] == c
  }

  /** `s.count(c)`. */
  function CountChar(s: string, c: char): (n: nat)
    ensures n <= |s|
    ensures n == 0 <==> !HasChar(s, c)
  {
    if s == [] then 0
    else
      var rest := CountChar(s[1..], c);
      assert forall k :: 0 <= k < |s[1..]| ==> s[1..][k] == s[k + 1];
      (if s[0] == c then 1 else 0) + rest
  }

  /** `str.isupper` for one cased character: Latin and Cyrillic capitals (Ё included). */
  predicate IsUpper(c: char) {
    ('A' <= c <= 'Z') || ('\U{400}' <= c <= '\U{42f}')
  }

  /** `str.lower` for one character: Latin and Cyrillic capitals, Ё to ё included. */
  function LowerChar(c: char): (r: char)
    ensures IsUpper(c) ==> r != c && !IsUpper(r)
    ensures !IsUpper(c) ==> r == c
  {
    if 'A' <= c <= 'Z' then (c as int + 32) as char
    else if '\U{410}' <= c <= '\U{42f}' then (c as int + 32) as char
    else if '\U{400}' <= c <= '\U{40f}' then (c as int + 80) as char
    else c
  }

  function Lower(s: string): (r: string)
    ensures |r| == |s| && forall k :: 0 <= k < |s| ==> r[k] == LowerChar(s[k])
  {
    seq(|s|, k requires 0 <= k < |s| => LowerChar(s[k]))
  }

  /** `str.isdigit` restricted to the ASCII digits. */
  predicate IsDigit(c: char) {
    '0' <= c <= '9'
  }

  /** A non-empty run of ASCII digits (what `\d+` matches in full). */
  predicate AllDigits(s: string) {
    |s| > 0 && forall k :: 0 <= k < |s| ==> IsDigit(s[k])
  }

  function DigitValue(c: char): (d: nat)
    requires IsDigit(c)
    ensures d < 10
  {
    c as int - '0' as int
  }

  function DigitChar(d: nat): (c: char)
    requires d < 10
    ensures IsDigit(c) && DigitValue(c) == d
  {
    ('0' as int + d) as char
  }

  /** `int(s)` for a string of ASCII digits. */
  function DigitsValue(s: string): nat
    requires forall k :: 0 <= k < |s| ==> IsDigit(s[k])
  {
    if s == [] then 0 else DigitsValue(s[..|s| - 1]) * 10 + DigitValue(s[|s| - 1])
  }

  /** `str(n)` for a natural number. */
  function NatToString(n: nat): (s: string)
    ensures AllDigits(s)
    ensures |s| > 1 ==> s[0] != '0'
    decreases n
  {
    if n < 10 then [DigitChar(n)] else NatToString(n / 10) + [DigitChar(n % 10)]
  }

  /** Reading back what `str` wrote gives the number again: `int(str(n)) == n`. */
  lemma {:induction false} NatToStringRoundTrip(n: nat)
    ensures DigitsValue(NatToString(n)) == n
    decreases n
  {
    if n >= 10 {
      NatToStringRoundTrip(n / 10);
      var s := NatToString(n);
      assert s[..|s| - 1] == NatToString(n / 10);
    }
  }

  /** Distinct numbers are written differently. */
  lemma NatToStringInjective(m: nat, n: nat)
    requires NatToString(m) == NatToString(n)
    ensures m == n
  {
    NatToStringRoundTrip(m);
    NatToStringRoundTrip(n);
  }

  /** Only digits and dots: the characters of a dotted number. */
  predicate TokenChars(s: string) {
    forall k :: 0 <= k < |s| ==> IsDigit(s[k]) || s[k] == '.'
  }

  /** `'.'.join(map(str, nums))`. */
  function JoinDots(nums: seq<nat>): (s: string)
    ensures |nums| > 0 ==> |s| > 0 && IsDigit(s[0]) && IsDigit(s[|s| - 1])
    ensures CountChar(s, '.') == if |nums| == 0 then 0 else |nums| - 1
    ensures TokenChars(s)
  {
    if |nums| == 0 then ""
    else if |nums| == 1 then NatToString(nums[0])
    else
      var head := NatToString(nums[0]);
      var tail := JoinDots(nums[1..]);
      CountAppend(head + ".", tail, '.');
      CountAppend(head, ".", '.');
      NoDotInDigits(head);
      head + "." + tail
  }

  lemma CountAppend(a: string, b: string, c: char)
    ensures CountChar(a + b, c) == CountChar(a, c) + CountChar(b, c)
  {
    if a == [] {
      assert a + b == b;
    } else {
      assert (a + b)[1..] == a[1..] + b;
      CountAppend(a[1..], b, c);
    }
  }

  lemma NoDotInDigits(s: string)
    requires AllDigits(s)
    ensures CountChar(s, '.') == 0
  {
    assert !HasChar(s, '.') by {
      forall k | 0 <= k < |s| ensures s[k] != '.' {
        assert IsDigit(s[k]);
      }
    }
  }

  /** `sep.join(parts)`. */
  function JoinWith(parts: seq<string>, sep: string): (s: string)
    ensures |parts| == 1 ==> s == parts[0]
  {
    if |parts| == 0 then ""
    else if |parts| == 1 then parts[0]
    else parts[0] + sep + JoinWith(parts[1..], sep)
  }
}
