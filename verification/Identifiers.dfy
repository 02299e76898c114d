/** Phone-number identifiers, and the digits of them that select a simulated outcome. */
module Identifiers {
  import opened Decimal
  import opened Text
  import opened Wrappers

  /** A leading `+`, then 5 to 15 digits, the first of them not zero. */
  predicate IsValidE164(s: string) {
    StartsWith(s, "+") && 5 <= |s| - 1 <= 15 && s[1] != '0' && All(s[1..], IsDigit)
  }

  function DigitsOf(s: string): (digits: string)
    ensures All(digits, IsDigit)
  {
    if s == [] then []
    else if IsDigit(s[0]) then [s[0]] + DigitsOf(s[1..])
    else DigitsOf(s[1..])
  }

  const RESERVED_ERROR_SUFFIXES: set<nat> := {400, 401, 403, 404, 409, 422, 429, 500, 503}

  /** The error status a trailing three digits select, if they are a reserved one. */
  function ReservedError(identifier: string): Option<nat> {
    var digits := DigitsOf(identifier);
    if |digits| < 3 then None
    else
      var tail := Value(digits[|digits| - 3..]);
      if tail in RESERVED_ERROR_SUFFIXES then Some(tail) else None
  }

  const VALIDATION_REQUIRED_TAIL := "888"

  predicate RequiresValidation(phone: string) {
    EndsWith(phone, VALIDATION_REQUIRED_TAIL)
  }

  /** The one-time code sent for a phone number: its last six digits, zero-padded. */
  function OtpCode(phone: string): string {
    var digits := DigitsOf(phone);
    var start := if |digits| >= 6 then |digits| - 6 else 0;
    PadLeft(digits[start..], '0', 6)
  }

  lemma {:induction false} AllDigits(s: string)
    requires All(s, IsDigit)
    ensures DigitsOf(s) == s
  {
    if s != [] {
      AllDigits(s[1..]);
      assert s == [s[0]] + s[1..];
    }
  }

  lemma OtpCodeOfDigits(phone: string, digits: string)
    requires DigitsOf(phone) == digits && |digits| >= 5
    ensures |digits| >= 6 ==> OtpCode(phone) == digits[|digits| - 6..]
    ensures |digits| == 5 ==> OtpCode(phone) == "0" + digits
  {
    hide DigitsOf;
    if |digits| >= 6 {
      assert OtpCode(phone) == digits[|digits| - 6..];
    } else {
      assert digits[0..] == digits;
    }
  }

  /** The code of a valid number is six digits and shares every digit the number's tail has. */
  lemma OtpCodeOfValidNumber(phone: string)
    requires IsValidE164(phone)
    ensures |OtpCode(phone)| == 6 && All(OtpCode(phone), IsDigit)
    ensures |phone| >= 7 ==> EndsWith(phone, OtpCode(phone))
    ensures |phone| == 6 ==> OtpCode(phone) == "0" + phone[1..]
  {
    var digits := phone[1..];
    AllDigits(digits);
    assert DigitsOf(phone) == digits;
    hide DigitsOf, OtpCode;
    OtpCodeOfDigits(phone, digits);
    assert |digits| >= 6 ==> digits[|digits| - 6..] == phone[|phone| - 6..];
  }

  /** A number that passes every check and needs no code. */
  lemma OrdinaryNumber()
    ensures IsValidE164("+12345") && ReservedError("+12345").None? && !RequiresValidation("+12345")
  {
    var digits := "12345";
    assert "+12345"[1..] == digits && "+12345"[3..] == "345";
    DigitsAfterPlus("+12345");
    ValueOfTail();
    hide DigitsOf, Value;
    assert digits[2..] == "345";
  }

  lemma DigitsAfterPlus(s: string)
    requires |s| > 0 && s[0] == '+' && All(s[1..], IsDigit)
    ensures DigitsOf(s) == s[1..]
  {
    AllDigits(s[1..]);
  }

  lemma ValueOfTail()
    ensures Value("345") == 345
  {
    assert "345"[..2] == "34" && "34"[..1] == "3" && "3"[..0] == "";
  }
}
