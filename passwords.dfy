/**
 * The password rule of the user-creation schema: a new password must contain at least one
 * digit and at least one of the special characters `!@#$%^&*()_+`. The digit is checked
 * first, so a password lacking both is refused for the missing digit.
 */
module Passwords {
  import opened Wrappers
  import opened Text

  /** The characters that count as special. */
  const Specials: string := "!@#$%^&*()_+"

  predicate IsSpecial(c: char) {
    c in Specials
  }

  /** Why a password is refused; each stands for one `ValueError`. */
  datatype Complaint = NoDigit | NoSpecial

  function ComplaintText(c: Complaint): string {
    match c
    case NoDigit => "Password must contain at least 1 digit"
    case NoSpecial => "Password must contain at least 1 special character"
  }

  /** `any(char.isdigit() for char in v)`, scanned from the front. */
  predicate AnyDigit(v: string) {
    |v| > 0 && (IsDigit(v[0]) || AnyDigit(v[1..]))
  }

  /** `any(char in "!@#$%^&*()_+" for char in v)`, scanned from the front. */
  predicate AnySpecial(v: string) {
    |v| > 0 && (IsSpecial(v[0]) || AnySpecial(v[1..]))
  }

  /** The validator: the password itself when it passes, the first complaint otherwise. */
  function ValidatePasswordComplexity(v: string): (r: Result<string, Complaint>)
    ensures r.Success? ==> r.value == v
  {
    if !AnyDigit(v) then Failure(NoDigit)
    else if !AnySpecial(v) then Failure(NoSpecial)
    else Success(v)
  }

  predicate HasDigit(v: string) {
    exists k :: 0 <= k < |v| && IsDigit(v[k])
  }

  predicate HasSpecial(v: string) {
    exists k :: 0 <= k < |v| && IsSpecial(v[k])
  }

  lemma {:induction false} AnyDigitIff(v: string)
    ensures AnyDigit(v) <==> HasDigit(v)
  {
    if |v| > 0 {
      AnyDigitIff(v[1..]);
      if HasDigit(v) && !IsDigit(v[0]) {
        var k :| 0 <= k < |v| && IsDigit(v[k]);
        assert v[1..][k - 1] == v[k];
      }
      if HasDigit(v[1..]) {
        var k :| 0 <= k < |v[1..]| && IsDigit(v[1..][k]);
        assert v[k + 1] == v[1..][k];
      }
    }
  }

  lemma {:induction false} AnySpecialIff(v: string)
    ensures AnySpecial(v) <==> HasSpecial(v)
  {
    if |v| > 0 {
      AnySpecialIff(v[1..]);
      if HasSpecial(v) && !IsSpecial(v[0]) {
        var k :| 0 <= k < |v| && IsSpecial(v[k]);
        assert v[1..][k - 1] == v[k];
      }
      if HasSpecial(v[1..]) {
        var k :| 0 <= k < |v[1..]| && IsSpecial(v[1..][k]);
        assert v[k + 1] == v[1..][k];
      }
    }
  }

  /** A password is accepted, unchanged, exactly when it has a digit and a special character. */
  lemma AcceptedIff(v: string)
    ensures ValidatePasswordComplexity(v) == Success(v) <==> HasDigit(v) && HasSpecial(v)
  {
    AnyDigitIff(v);
    AnySpecialIff(v);
  }

  /** The digit complaint is raised exactly when there is no digit, whatever else is missing. */
  lemma NoDigitIff(v: string)
    ensures ValidatePasswordComplexity(v) == Failure(NoDigit) <==> !HasDigit(v)
  {
    AnyDigitIff(v);
  }

  /** The special-character complaint is raised exactly when there is a digit but no special character. */
  lemma NoSpecialIff(v: string)
    ensures ValidatePasswordComplexity(v) == Failure(NoSpecial) <==> HasDigit(v) && !HasSpecial(v)
  {
    AnyDigitIff(v);
    AnySpecialIff(v);
  }

  /** A password lacking both is refused for the digit. */
  lemma LettersOnly()
    ensures ValidatePasswordComplexity("pw") == Failure(NoDigit)
  {
    assert "pw"[1..] == "w" && "w"[1..] == [];
  }

  /** A digit without a special character is refused for the special character. */
  lemma DigitOnly()
    ensures ValidatePasswordComplexity("p1") == Failure(NoSpecial)
  {
    assert "p1"[1..] == "1" && "1"[1..] == [];
  }

  /** A digit and a special character are enough. */
  lemma DigitAndSpecial()
    ensures ValidatePasswordComplexity("1!") == Success("1!")
  {
    assert "1!"[1..] == "!";
  }
}
