/**
 * Two small decisions of the logging set-up: the level at which a request is logged,
 * chosen from the response's status code, and the size at which a log file is rotated,
 * read from a setting such as `10MB`.
 */
module Logger {
  import opened Wrappers
  import opened Text

  /** The numeric values of Python's standard logging levels. */
  const Debug: int := 10
  const Info: int := 20
  const Warning: int := 30
  const Error: int := 40

  /** The level a request with a given status code is logged at. */
  function LogLevel(statusCode: int): (level: int)
    ensures level == Debug || level == Info || level == Warning || level == Error
  {
    if 100 <= statusCode < 300 then Info
    else if 300 <= statusCode < 400 then Debug
    else if 400 <= statusCode < 500 then Warning
    else if 500 <= statusCode then Error
    else Info
  }

  /** The same decision made by the status class, the hundreds digit of the code. */
  function ClassLevel(statusClass: int): int {
    if statusClass == 3 then Debug
    else if statusClass == 4 then Warning
    else if statusClass >= 5 then Error
    else Info
  }

  /** Choosing by range and choosing by status class agree on every code, negative ones included. */
  lemma LevelByClass(statusCode: int)
    ensures LogLevel(statusCode) == ClassLevel(statusCode / 100)
  {
  }

  /** Redirects are the only quiet responses; server errors are the only errors. */
  lemma LevelMeaning(statusCode: int)
    ensures LogLevel(statusCode) == Debug <==> 300 <= statusCode < 400
    ensures LogLevel(statusCode) == Warning <==> 400 <= statusCode < 500
    ensures LogLevel(statusCode) == Error <==> 500 <= statusCode
    ensures LogLevel(statusCode) == Info <==> statusCode < 300
  {
  }

  /** `str.upper` on ASCII letters; other characters are left as they are. */
  function UpperChar(c: char): char {
    if 'a' <= c <= 'z' then (c as int - 32) as char else c
  }

  function Upper(s: string): (r: string)
    ensures |r| == |s| && forall k :: 0 <= k < |s| ==> r[k] == UpperChar(s[k])
  {
    seq(|s|, k requires 0 <= k < |s| => UpperChar(s[k]))
  }

  /**
   * The digits Python's `int` accepts in a decimal literal: digits with single underscores
   * between them, neither first nor last.
   */
  predicate Grouped(s: string) {
    && |s| > 0 && IsDigit(s[0]) && IsDigit(s[|s| - 1])
    && (forall k :: 0 <= k < |s| ==> IsDigit(s[k]) || s[k] == '_')
    && (forall k :: 0 <= k < |s| - 1 ==> s[k] != '_' || s[k + 1] != '_')
  }

  /** The digits of a grouped literal without its underscores. */
  function Ungrouped(s: string): (r: string)
    requires forall k :: 0 <= k < |s| ==> IsDigit(s[k]) || s[k] == '_'
    ensures forall k :: 0 <= k < |r| ==> IsDigit(r[k])
    ensures (forall k :: 0 <= k < |s| ==> IsDigit(s[k])) ==> r == s
  {
    if s == [] then []
    else (if s[0] == '_' then [] else [s[0]]) + Ungrouped(s[1..])
  }

  /** `int(s)`: `None` where Python raises `ValueError`. */
  function PyInt(s: string): (r: Option<int>) {
    var t := Strip(s);
    var negative := |t| > 0 && t[0] == '-';
    var body := if |t| > 0 && (t[0] == '-' || t[0] == '+') then t[1..] else t;
    if Grouped(body) then
      var v: int := DigitsValue(Ungrouped(body));
      Some(if negative then -v else v)
    else None
  }

  /** `value * factor` when `int` succeeded. */
  function Scaled(value: Option<int>, factor: int): (r: Option<int>)
    ensures r.Some? <==> value.Some?
  {
    match value
    case None => None
    case Some(v) => Some(v * factor)
  }

  const KiB: int := 1024
  const MiB: int := 1024 * 1024
  const GiB: int := 1024 * 1024 * 1024

  /** The factor of the unit a normalised setting ends with, tested in the order `MB`, `KB`, `GB`. */
  function SizeUnit(s: string): (f: Option<int>)
    ensures f.Some? ==> |s| >= 2
  {
    if EndsWith(s, "MB") then Some(MiB)
    else if EndsWith(s, "KB") then Some(KiB)
    else if EndsWith(s, "GB") then Some(GiB)
    else None
  }

  /** The rotation size in bytes for a setting such as `10MB`; `None` where Python raises. */
  function ParseRotationSize(size: string): Option<int> {
    var s := Strip(Upper(size));
    match SizeUnit(s)
    case Some(f) => Scaled(PyInt(s[..|s| - 2]), f)
    case None => PyInt(s)
  }

  /** A text that neither starts nor ends with whitespace is its own strip. */
  lemma StripUnchanged(s: string)
    requires |s| > 0 && !IsSpace(s[0]) && !IsSpace(s[|s| - 1])
    ensures Strip(s) == s
  {
  }

  /** `int(str(n)) == n`, and the same for `-n`. */
  lemma PyIntOfNat(n: nat)
    ensures PyInt(NatToString(n)) == Some(n)
    ensures PyInt("-" + NatToString(n)) == Some(-(n as int))
  {
    var d := NatToString(n);
    StripUnchanged(d);
    StripUnchanged("-" + d);
    assert ("-" + d)[1..] == d;
    NatToStringRoundTrip(n);
  }

  /** `upper` leaves digits and capitals alone. */
  lemma {:induction false} UpperOfDigits(d: string)
    requires forall k :: 0 <= k < |d| ==> IsDigit(d[k])
    ensures Upper(d) == d
  {
  }

  lemma UpperConcat(a: string, b: string)
    ensures Upper(a + b) == Upper(a) + Upper(b)
  {
  }

  /** What the parser sees of a number followed by a two-letter unit. */
  lemma {:induction false} WithUnit(sign: string, n: nat, unit: string)
    requires sign == "" || sign == "-"
    requires |unit| == 2 && Upper(unit) == unit && !IsSpace(unit[1])
    ensures Strip(Upper(sign + NatToString(n) + unit)) == sign + NatToString(n) + unit
    ensures var s := sign + NatToString(n) + unit; s[..|s| - 2] == sign + NatToString(n) && EndsWith(s, unit)
  {
    var d := NatToString(n);
    UpperOfDigits(d);
    UpperConcat(sign, d);
    UpperConcat(sign + d, unit);
    assert Upper(sign) == sign;
    var s := sign + d + unit;
    assert s[|s| - 1] == unit[1];
    assert !IsSpace(s[0]) by {
      if sign == "" { assert s[0] == d[0]; } else { assert s[0] == '-'; }
    }
    StripUnchanged(s);
    assert s[..|s| - 2] == sign + d;
    assert s[|s| - 2..] == unit;
  }

  /** The bytes in one of each unit the setting may name. */
  function UnitFactor(unit: string): int {
    if unit == "MB" then MiB else if unit == "KB" then KiB else GiB
  }

  /** A number with a unit is the number times the unit's factor. */
  lemma {:induction false} UnitSize(sign: string, n: nat, unit: string)
    requires sign == "" || sign == "-"
    requires unit == "MB" || unit == "KB" || unit == "GB"
    ensures ParseRotationSize(sign + NatToString(n) + unit) == Scaled(PyInt(sign + NatToString(n)), UnitFactor(unit))
  {
    assert Upper(unit) == unit;
    WithUnit(sign, n, unit);
    ParsedWithUnit(sign + NatToString(n) + unit, unit);
  }

  /** A setting whose normalised text ends in a unit is read as the number before the unit, scaled. */
  lemma ParsedWithUnit(size: string, unit: string)
    requires unit == "MB" || unit == "KB" || unit == "GB"
    requires EndsWith(Strip(Upper(size)), unit)
    ensures var t := Strip(Upper(size)); ParseRotationSize(size) == Scaled(PyInt(t[..|t| - 2]), UnitFactor(unit))
  {
    UnitRecognised(Strip(Upper(size)), unit);
  }

  lemma UnitRecognised(t: string, unit: string)
    requires unit == "MB" || unit == "KB" || unit == "GB"
    requires EndsWith(t, unit)
    ensures SizeUnit(t) == Some(UnitFactor(unit))
  {
    assert t[|t| - 2..] == unit;
    assert t[|t| - 2] == unit[0];
  }

  /**
   * A size written as a number and a unit is that many bytes: `nMB` is n mebibytes, `nKB`
   * n kibibytes, `nGB` n gibibytes.
   */
  lemma SizesInBytes(n: nat)
    ensures ParseRotationSize(NatToString(n) + "MB") == Some(n * 1048576)
    ensures ParseRotationSize(NatToString(n) + "KB") == Some(n * 1024)
    ensures ParseRotationSize(NatToString(n) + "GB") == Some(n * 1073741824)
  {
    PyIntOfNat(n);
    var d := NatToString(n);
    assert "" + d == d;
    UnitSize("", n, "MB");
    UnitSize("", n, "KB");
    UnitSize("", n, "GB");
  }

  /** Nothing rejects a negative size: `-nKB` is minus n kibibytes. */
  lemma NegativeSize(n: nat)
    ensures ParseRotationSize("-" + NatToString(n) + "KB") == Some(-(n as int) * KiB)
  {
    calc {
      ParseRotationSize("-" + NatToString(n) + "KB");
    == { UnitSize("-", n, "KB"); }
      Scaled(PyInt("-" + NatToString(n)), UnitFactor("KB"));
    == { PyIntOfNat(n); }
      Scaled(Some(-(n as int)), UnitFactor("KB"));
    == { assert UnitFactor("KB") == KiB; }
      Some(-(n as int) * KiB);
    }
  }

  /** A bare number is that many bytes. */
  lemma PlainSize(n: nat)
    ensures ParseRotationSize(NatToString(n)) == Some(n)
  {
    var d := NatToString(n);
    UpperOfDigits(d);
    StripUnchanged(d);
    PyIntOfNat(n);
    assert !EndsWith(d, "MB") && !EndsWith(d, "KB") && !EndsWith(d, "GB") by {
      assert IsDigit(d[|d| - 1]);
    }
  }

  /** The unit may be written in any case. */
  lemma UnitCaseIgnored(size: string)
    ensures ParseRotationSize(Upper(size)) == ParseRotationSize(size)
  {
    assert Upper(Upper(size)) == Upper(size);
  }

  /** A unit alone is not a size: `int('')` raises. */
  lemma UnitAlone()
    ensures ParseRotationSize("MB") == None
    ensures ParseRotationSize("") == None
  {
    assert Upper("MB") == "MB";
    StripUnchanged("MB");
    assert "MB"[..0] == [];
  }
}
