/** The Luhn check of ISO/IEC 7812-1, Annex B, which the card numbers and
    the Swedish personal and organisation numbers satisfy. */
module Luhn {
  import opened Chars

  /** The digit sum of a digit, doubled when `doubled`. */
  function LuhnTerm(c: char, doubled: bool): nat {
    var d := if IsDigit(c) then DigitValue(c) else 0;
    if doubled then (2 * d) / 10 + (2 * d) % 10 else d
  }

  /** The Luhn sum read from the right: the rightmost digit is doubled when
      `doubled` holds, and doubling alternates from there leftwards. */
  function LuhnSum(s: string, doubled: bool): nat {
    if s == [] then 0 else LuhnTerm(s[|s| - 1], doubled) + LuhnSum(s[..|s| - 1], !doubled)
  }

  /** A number passes the Luhn check: all digits, and the sum with every
      second digit from the right doubled is a multiple of ten. */
  predicate LuhnValid(s: string) {
    AllDigits(s) && LuhnSum(s, false) % 10 == 0
  }

  /** The digit that completes a string of digits to pass the check: the
      complement of the sum in which the string's last digit is doubled. */
  function CheckDigit(s: string): (d: nat)
    ensures d <= 9
  {
    (10 - LuhnSum(s, true) % 10) % 10
  }

  /** Appending a digit passes the check exactly when it is the check digit. */
  lemma CheckDigitCompletes(s: string)
    requires AllDigits(s)
    ensures forall d | 0 <= d <= 9 :: LuhnValid(s + [DigitChar(d)]) <==> d == CheckDigit(s)
  {
    forall d | 0 <= d <= 9
      ensures LuhnValid(s + [DigitChar(d)]) <==> d == CheckDigit(s)
    {
      AppendDigit(s, d);
      Complement(LuhnSum(s, true), d);
    }
  }

  /** The appended digit is not doubled; the digits before it shift parity. */
  lemma AppendDigit(s: string, d: nat)
    requires AllDigits(s) && d <= 9
    ensures AllDigits(s + [DigitChar(d)])
    ensures LuhnSum(s + [DigitChar(d)], false) == d + LuhnSum(s, true)
  {
    var r := s + [DigitChar(d)];
    assert r[..|r| - 1] == s;
    forall i | 0 <= i < |r| ensures IsDigit(r[i]) {
      if i < |s| {
        assert r[i] == s[i];
      }
    }
  }

  lemma Complement(sum: nat, d: nat)
    requires d <= 9
    ensures (d + sum) % 10 == 0 <==> d == (10 - sum % 10) % 10
  {
  }
}
