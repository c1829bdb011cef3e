/** ASCII character classes, decimal rendering and parsing, padding, and
    Java's truncating integer division, shared by the format providers. */
module Chars {

  predicate IsDigit(c: char) { '0' <= c <= '9' }
  predicate IsUpper(c: char) { 'A' <= c <= 'Z' }
  predicate IsLower(c: char) { 'a' <= c <= 'z' }
  predicate IsLetter(c: char) { IsUpper(c) || IsLower(c) }

  predicate AllDigits(s: string) { forall i :: 0 <= i < |s| ==> IsDigit(s[i]) }
  predicate AllUpper(s: string) { forall i :: 0 <= i < |s| ==> IsUpper(s[i]) }

  function DigitValue(c: char): (d: int)
    requires IsDigit(c)
    ensures 0 <= d <= 9
  {
    c as int - '0' as int
  }

  function DigitChar(d: int): (c: char)
    requires 0 <= d <= 9
    ensures IsDigit(c) && DigitValue(c) == d
  {
    ('0' as int + d) as char
  }

  /** Character.digit(c, 10): the digit's value, or -1 for any other character. */
  function JavaDigit(c: char): int {
    if IsDigit(c) then DigitValue(c) else -1
  }

  /** Character.getNumericValue: digits, then letters of either case as 10..35, else -1. */
  function NumericValue(c: char): int {
    if IsDigit(c) then DigitValue(c)
    else if IsUpper(c) then c as int - 'A' as int + 10
    else if IsLower(c) then c as int - 'a' as int + 10
    else -1
  }

  /** String.length(): UTF-16 code units, two for a character beyond the
      Basic Multilingual Plane. */
  function Utf16Length(s: string): (n: nat)
    ensures |s| <= n <= 2 * |s|
  {
    if s == [] then 0 else (if s[0] as int > 0xFFFF then 2 else 1) + Utf16Length(s[1..])
  }

  /** Text within the Basic Multilingual Plane has one unit per character. */
  lemma {:induction false} Utf16LengthBmp(s: string)
    requires forall i :: 0 <= i < |s| ==> s[i] as int <= 0xFFFF
    ensures Utf16Length(s) == |s|
  {
    if s != [] {
      Utf16LengthBmp(s[1..]);
    }
  }

  function ToLowerChar(c: char): char {
    if IsUpper(c) then (c as int + 32) as char else c
  }

  function ToUpperChar(c: char): char {
    if IsLower(c) then (c as int - 32) as char else c
  }

  /** String.toLowerCase restricted to ASCII letters. */
  function Lower(s: string): (r: string)
    ensures |r| == |s|
    ensures forall i :: 0 <= i < |s| ==> r[i] == ToLowerChar(s[i])
  {
    seq(|s|, i requires 0 <= i < |s| => ToLowerChar(s[i]))
  }

  /** String.toUpperCase restricted to ASCII letters. */
  function Upper(s: string): (r: string)
    ensures |r| == |s|
    ensures forall i :: 0 <= i < |s| ==> r[i] == ToUpperChar(s[i])
  {
    seq(|s|, i requires 0 <= i < |s| => ToUpperChar(s[i]))
  }

  /** Java's `/` on int: the quotient truncated toward zero. */
  function JavaDiv(a: int, b: int): int
    requires b > 0
  {
    if a >= 0 then a / b else -((-a) / b)
  }

  /** Java's `%` on int: the remainder takes the sign of the dividend. */
  function JavaRem(a: int, b: int): (r: int)
    requires b > 0
    ensures a == JavaDiv(a, b) * b + r
    ensures a >= 0 ==> 0 <= r < b
    ensures a < 0 ==> -b < r <= 0
  {
    if a >= 0 then a % b else -((-a) % b)
  }

  function Pow10(k: nat): (p: nat)
    ensures p >= 1
  {
    if k == 0 then 1 else 10 * Pow10(k - 1)
  }

  /** The decimal form of a natural number, as Integer.toString writes it. */
  function NatToString(n: nat): (s: string)
    ensures |s| >= 1 && AllDigits(s)
    decreases n
  {
    if n < 10 then [DigitChar(n)] else NatToString(n / 10) + [DigitChar(n % 10)]
  }

  /** Integer.toString of any int: a leading '-' for negatives. */
  function IntToString(i: int): (s: string)
    ensures |s| >= 1
    ensures i >= 0 ==> s == NatToString(i)
    ensures i < 0 ==> s[0] == '-'
  {
    if i >= 0 then NatToString(i) else "-" + NatToString(-i)
  }

  /** The value of a string of decimal digits, leading zeros allowed. */
  function ParseDigits(s: string): nat
    requires AllDigits(s)
  {
    if s == [] then 0 else ParseDigits(s[..|s| - 1]) * 10 + DigitValue(s[|s| - 1])
  }

  /** StringUtils.leftPad: prefix `c` until the string has `size` characters; never truncates. */
  function LeftPad(s: string, size: int, c: char): (r: string)
    ensures |s| >= size ==> r == s
    ensures |s| < size ==> |r| == size
  {
    if |s| >= size then s else seq(size - |s|, _ => c) + s
  }

  /** The padded string ends with the original and starts with the pad. */
  lemma LeftPadSpec(s: string, size: int, c: char)
    ensures var r := LeftPad(s, size, c);
            r[|r| - |s|..] == s && forall i :: 0 <= i < |r| - |s| ==> r[i] == c
  {
  }

  /** String.format("%0<width>d", n) for n >= 0. */
  function ZeroPad(n: nat, width: nat): (r: string)
    ensures AllDigits(r)
    ensures |r| >= width
  {
    LeftPad(NatToString(n), width, '0')
  }

  /** Replaces every occurrence of `c` by `rep` (String.replace of a one-character target). */
  function ReplaceChar(s: string, c: char, rep: string): (r: string)
    ensures c !in rep ==> c !in r
    ensures c !in s ==> r == s
  {
    if s == [] then []
    else (if s[0] == c then rep else [s[0]]) + ReplaceChar(s[1..], c, rep)
  }

  /** How many times `c` occurs in `s`. */
  function Occurrences(s: string, c: char): (n: nat)
    ensures n <= |s|
    ensures n == 0 <==> c !in s
  {
    if s == [] then 0 else (if s[0] == c then 1 else 0) + Occurrences(s[1..], c)
  }

  /** Each occurrence of `c` grows the string by |rep| - 1. */
  lemma {:induction false} ReplaceCharLength(s: string, c: char, rep: string)
    ensures |ReplaceChar(s, c, rep)| == |s| + Occurrences(s, c) * (|rep| - 1)
    decreases |s|
  {
    if s != [] {
      ReplaceCharLength(s[1..], c, rep);
      var h: nat, k := if s[0] == c then 1 else 0, Occurrences(s[1..], c);
      assert |ReplaceChar(s, c, rep)| == (if s[0] == c then |rep| else 1) + |ReplaceChar(s[1..], c, rep)|;
      OneMoreTimes(h, k, |rep| - 1);
    }
  }

  lemma OneMoreTimes(h: nat, k: nat, m: int)
    requires h <= 1
    ensures (h + k) * m == h * m + k * m && h * m == (if h == 1 then m else 0)
  {
  }

  /** A character neither in `s` nor in `rep` is not in the replacement. */
  lemma {:induction false} ReplaceCharKeepsAbsent(s: string, c: char, rep: string, d: char)
    requires d !in s && d !in rep
    ensures d !in ReplaceChar(s, c, rep)
    decreases |s|
  {
    if s != [] {
      assert d !in s[1..];
      ReplaceCharKeepsAbsent(s[1..], c, rep, d);
    }
  }

  /** Removing `c` shortens the string by its number of occurrences. */
  lemma {:induction false} RemoveCharLength(s: string, c: char)
    ensures |RemoveChar(s, c)| == |s| - Occurrences(s, c)
    decreases |s|
  {
    if s != [] {
      RemoveCharLength(s[1..], c);
    }
  }

  /** Removes every occurrence of `c`. */
  function RemoveChar(s: string, c: char): (r: string)
    ensures c !in r
    ensures |r| <= |s|
  {
    if s == [] then []
    else (if s[0] == c then [] else [s[0]]) + RemoveChar(s[1..], c)
  }

  /** A string without the character is left as it is. */
  lemma {:induction false} RemoveCharAbsent(s: string, c: char)
    requires c !in s
    ensures RemoveChar(s, c) == s
    decreases |s|
  {
    if s != [] {
      assert s[0] != c && c !in s[1..];
      RemoveCharAbsent(s[1..], c);
      assert s == [s[0]] + s[1..];
    }
  }

  /** Removing a character from a concatenation removes it from each part. */
  lemma {:induction false} RemoveCharConcat(a: string, b: string, c: char)
    ensures RemoveChar(a + b, c) == RemoveChar(a, c) + RemoveChar(b, c)
    decreases |a|
  {
    if a != [] {
      var x, t := a[0], a[1..];
      var h := if x == c then [] else [x];
      var rt, rb := RemoveChar(t, c), RemoveChar(b, c);
      RemoveCharConcat(t, b, c);
      assert a == [x] + t && a + b == [x] + (t + b);
      RemoveCharHead(x, t, c);
      RemoveCharHead(x, t + b, c);
      assert RemoveChar(a + b, c) == h + (rt + rb);
      assert h + (rt + rb) == (h + rt) + rb;
    } else {
      assert a + b == b;
    }
  }

  lemma RemoveCharHead(x: char, s: string, c: char)
    ensures RemoveChar([x] + s, c) == (if x == c then [] else [x]) + RemoveChar(s, c)
  {
    assert ([x] + s)[1..] == s;
  }

  /** A digit's character is given back by its value. */
  lemma DigitRoundTrip(c: char)
    requires IsDigit(c)
    ensures DigitChar(DigitValue(c)) == c
  {
  }

  function Join(parts: seq<string>, sep: string): string {
    if parts == [] then ""
    else if |parts| == 1 then parts[0]
    else parts[0] + sep + Join(parts[1..], sep)
  }

  lemma {:induction false} NatToStringLength(n: nat, k: nat)
    requires 1 <= k && n < Pow10(k)
    ensures |NatToString(n)| <= k
    decreases n
  {
    if n >= 10 {
      NatToStringLength(n / 10, k - 1);
    }
  }

  lemma {:induction false} NatToStringAtLeast(n: nat, k: nat)
    requires Pow10(k) <= n
    ensures |NatToString(n)| > k
    decreases n
  {
    if k > 0 {
      NatToStringAtLeast(n / 10, k - 1);
    }
  }

  lemma {:induction false} ParseNatToString(n: nat)
    ensures ParseDigits(NatToString(n)) == n
    decreases n
  {
    if n >= 10 {
      var s := NatToString(n);
      assert s[..|s| - 1] == NatToString(n / 10);
      ParseNatToString(n / 10);
    }
  }

  /** Distinct natural numbers have distinct decimal forms. */
  lemma NatToStringInjective(a: nat, b: nat)
    ensures NatToString(a) == NatToString(b) ==> a == b
  {
    ParseNatToString(a);
    ParseNatToString(b);
  }

  lemma Pow10Values()
    ensures Pow10(1) == 10 && Pow10(2) == 100 && Pow10(3) == 1000 && Pow10(4) == 10000
    ensures Pow10(5) == 100000 && Pow10(6) == 1000000 && Pow10(7) == 10000000
  {
    assert Pow10(1) == 10;
    assert Pow10(2) == 100;
    assert Pow10(3) == 1000;
    assert Pow10(4) == 10000;
    assert Pow10(5) == 100000;
    assert Pow10(6) == 1000000;
  }

  lemma {:induction false} ParseLeadingZeros(z: nat, s: string)
    requires AllDigits(s)
    ensures AllDigits(seq(z, _ => '0') + s)
    ensures ParseDigits(seq(z, _ => '0') + s) == ParseDigits(s)
    decreases |s|
  {
    var t := seq(z, _ => '0') + s;
    if s == [] {
      assert t == seq(z, _ => '0');
      ParseZeros(z);
    } else {
      assert t[..|t| - 1] == seq(z, _ => '0') + s[..|s| - 1];
      ParseLeadingZeros(z, s[..|s| - 1]);
    }
  }

  lemma {:induction false} ParseZeros(z: nat)
    ensures AllDigits(seq(z, _ => '0'))
    ensures ParseDigits(seq(z, _ => '0')) == 0
  {
    if z > 0 {
      assert seq(z, _ => '0')[..z - 1] == seq(z - 1, _ => '0');
      ParseZeros(z - 1);
    }
  }

  /** A zero-padded number reads back as the number, and has exactly `width`
      characters whenever it fits. */
  lemma ZeroPadSpec(n: nat, width: nat)
    ensures ParseDigits(ZeroPad(n, width)) == n
    ensures 1 <= width && n < Pow10(width) ==> |ZeroPad(n, width)| == width
  {
    var s := NatToString(n);
    ParseNatToString(n);
    if |s| < width {
      ParseLeadingZeros(width - |s|, s);
    }
    if 1 <= width && n < Pow10(width) {
      NatToStringLength(n, width);
    }
  }

  /** A number below 10^width pads to exactly `width` characters. */
  lemma ZeroPadWidth(n: nat, width: nat)
    requires 1 <= width && n < Pow10(width)
    ensures |ZeroPad(n, width)| == width
  {
    ZeroPadSpec(n, width);
  }

  lemma {:induction false} ParseDigitsBound(s: string)
    requires AllDigits(s)
    ensures ParseDigits(s) < Pow10(|s|)
    decreases |s|
  {
    if s != [] {
      ParseDigitsBound(s[..|s| - 1]);
    }
  }

  lemma LowerIdempotent(s: string)
    ensures Lower(Lower(s)) == Lower(s)
  {
  }

  /** Lower-casing forgets how a string was capitalised. */
  lemma LowerOfUpper(s: string)
    ensures Lower(Upper(s)) == Lower(s)
  {
  }

  /** Two strings that agree once lower-cased agree once upper-cased. */
  lemma UpperFromLower(s: string, t: string)
    requires Lower(s) == Lower(t)
    ensures Upper(s) == Upper(t)
  {
    forall i | 0 <= i < |s|
      ensures Upper(s)[i] == Upper(t)[i]
    {
      assert Lower(s)[i] == Lower(t)[i];
    }
  }
}
