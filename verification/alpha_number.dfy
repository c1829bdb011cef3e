/** AlphaNumberSystem: numbers written with the letters A..Z as digits. */
module AlphaNumber {
  import opened Wrappers
  import opened Chars

  const ALPHABET_SIZE: nat := 26

  /** The letter standing for digit `d`: 'A' for 0 up to 'Z' for 25. */
  function Letter(d: nat): (c: char)
    requires d < ALPHABET_SIZE
    ensures IsUpper(c)
  {
    ('A' as int + d) as char
  }

  /** The value of an upper-case letter read as a digit. */
  function LetterValue(c: char): (d: nat)
    requires IsUpper(c)
    ensures d < ALPHABET_SIZE && Letter(d) == c
  {
    c as int - 'A' as int
  }

  /** ALPHABET_CHARS, 'A' to 'Z'. */
  const ALPHABET_CHARS: seq<char> := seq(ALPHABET_SIZE, i requires 0 <= i < ALPHABET_SIZE => Letter(i))

  lemma AlphabetSpelledOut()
    ensures ALPHABET_CHARS == "ABCDEFGHIJKLMNOPQRSTUVWXYZ"
  {
  }

  /** generateAlphabetList: one single-letter string per alphabet letter. */
  method GenerateAlphabetList() returns (alphabetList: seq<string>)
    ensures |alphabetList| == ALPHABET_SIZE
    ensures forall i :: 0 <= i < |alphabetList| ==> alphabetList[i] == [Letter(i)]
  {
    alphabetList := [];
    for k := 0 to |ALPHABET_CHARS|
      invariant |alphabetList| == k
      invariant forall i :: 0 <= i < k ==> alphabetList[i] == [Letter(i)]
    {
      alphabetList := alphabetList + [[ALPHABET_CHARS[k]]];
    }
  }

  /** The base-`base` digits of a positive number, most significant first,
      spelled with letters; the empty string for zero or less. */
  function Letters(n: int, base: nat): (s: string)
    requires 2 <= base <= ALPHABET_SIZE
    ensures AllUpper(s)
    ensures n > 0 ==> |s| >= 1
    decreases n
  {
    if n <= 0 then "" else Letters(n / base, base) + [Letter(n % base)]
  }

  /** What convertToString returns for a non-negative number whose letters
      fit its buffer: "A" for zero, the letters otherwise. */
  function AlphaString(n: nat, base: nat): (s: string)
    requires 2 <= base <= ALPHABET_SIZE
    ensures AllUpper(s) && |s| >= 1
  {
    if n == 0 then "A" else Letters(n, base)
  }

  /** The outcome of convertToString: a negative buffer size fails, a
      negative number gives the empty string, and a number whose letters do
      not fit the numberToConvert/26 + 1 buffer overruns it. */
  function Converted(n: int, base: nat): Result<string>
    requires 2 <= base <= ALPHABET_SIZE
  {
    var size := JavaDiv(n, ALPHABET_SIZE) + 1;
    if size < 0 then Failure(NegativeArraySize)
    else if n < 0 then Success("")
    else if |AlphaString(n, base)| <= size then Success(AlphaString(n, base))
    else Failure(IndexOutOfBounds)
  }

  /** convertToString: the buffer is written right to left while the
      number is divided by the base. */
  method ConvertToString(numberToConvert: int, base: nat) returns (r: Result<string>)
    requires 2 <= base <= ALPHABET_SIZE
    ensures r == Converted(numberToConvert, base)
  {
    var number := numberToConvert;
    var size := JavaDiv(numberToConvert, ALPHABET_SIZE) + 1;
    if size < 0 {
      return Failure(NegativeArraySize);
    }
    var buffer := new char[size];
    var charPosition := size - 1;
    ghost var written: string := [];
    if number == 0 {
      buffer[charPosition] := ALPHABET_CHARS[number];
      charPosition := charPosition - 1;
      assert charPosition == -1 && ALPHABET_CHARS[0] == Letter(0) == 'A';
      written := "A";
      assert buffer[charPosition + 1..] == written;
    } else {
      while number > 0
        invariant -1 <= charPosition < size
        invariant written == buffer[charPosition + 1..]
        invariant Letters(numberToConvert, base) == Letters(number, base) + written
        decreases charPosition + 1
      {
        if charPosition < 0 {
          ConvertedCases(numberToConvert, base, Letters(numberToConvert, base));
          return Failure(IndexOutOfBounds);
        }
        var letter := ALPHABET_CHARS[number % base];
        LetterStep(number, base);
        buffer[charPosition] := letter;
        assert buffer[charPosition..] == [letter] + written;
        written := [letter] + written;
        charPosition := charPosition - 1;
        number := number / base;
      }
    }
    r := Success(buffer[charPosition + 1..]);
    assert r == Success(written);
    ConvertedCases(numberToConvert, base, written);
  }

  /** The three ways convertToString can end once its buffer exists. */
  lemma ConvertedCases(n: int, base: nat, written: string)
    requires 2 <= base <= ALPHABET_SIZE
    requires JavaDiv(n, ALPHABET_SIZE) + 1 >= 0
    requires n == 0 ==> written == "A"
    requires n != 0 ==> written == Letters(n, base)
    ensures |written| <= JavaDiv(n, ALPHABET_SIZE) + 1 ==> Converted(n, base) == Success(written)
    ensures n > 0 && |written| > JavaDiv(n, ALPHABET_SIZE) + 1 ==> Converted(n, base) == Failure(IndexOutOfBounds)
  {
  }

  /** Reads upper-case letters as base-`base` digits, most significant first. */
  function Decode(s: string, base: nat): nat
    requires AllUpper(s)
  {
    if s == [] then 0 else Decode(s[..|s| - 1], base) * base + LetterValue(s[|s| - 1])
  }

  /** Decoding the letters gives the number back. */
  lemma {:induction false} DecodeLetters(n: nat, base: nat)
    requires 2 <= base <= ALPHABET_SIZE
    ensures Decode(Letters(n, base), base) == n
    decreases n
  {
    if n > 0 {
      DecodeLetters(n / base, base);
      var q, d := n / base, n % base;
      var s := Letters(q, base);
      DecodeSnoc(s, d, base);
      calc {
        Decode(Letters(n, base), base);
        Decode(s + [Letter(d)], base);
        Decode(s, base) * base + d;
        q * base + d;
        { DivMod(n, base); }
        n;
      }
    }
  }

  /** Appending the letter for digit `d` multiplies by the base and adds `d`. */
  lemma DecodeSnoc(s: string, d: nat, base: nat)
    requires AllUpper(s) && d < ALPHABET_SIZE
    ensures AllUpper(s + [Letter(d)])
    ensures Decode(s + [Letter(d)], base) == Decode(s, base) * base + d
  {
    var t := s + [Letter(d)];
    assert t[..|t| - 1] == s;
    assert LetterValue(Letter(d)) == d;
  }

  /** One turn of the loop: the last letter is the remainder's, the rest
      are the quotient's. */
  lemma LetterStep(n: nat, base: nat)
    requires n > 0 && 2 <= base <= ALPHABET_SIZE
    ensures n / base < n
    ensures Letters(n, base) == Letters(n / base, base) + [ALPHABET_CHARS[n % base]]
  {
    DivMod(n, base);
    var q := n / base;
    assert q * 2 <= q * base;
  }

  lemma DivMod(n: nat, b: nat)
    requires b >= 1
    ensures (n / b) * b + n % b == n
  {
  }

  lemma DecodeAlphaString(n: nat, base: nat)
    requires 2 <= base <= ALPHABET_SIZE
    ensures Decode(AlphaString(n, base), base) == n
  {
    DecodeLetters(n, base);
  }

  /** Leading 'A's are leading zeros: they do not change the value. */
  lemma {:induction false} DecodeLeadingA(k: nat, s: string, base: nat)
    requires AllUpper(s)
    ensures AllUpper(seq(k, _ => 'A') + s)
    ensures Decode(seq(k, _ => 'A') + s, base) == Decode(s, base)
    decreases |s|
  {
    var t := seq(k, _ => 'A') + s;
    assert AllUpper(t) by {
      forall i | 0 <= i < |t| ensures IsUpper(t[i]) {
        if i >= k { assert t[i] == s[i - k]; }
      }
    }
    if s == [] {
      DecodeZeros(k, base);
      assert t == seq(k, _ => 'A');
    } else {
      var init := s[..|s| - 1];
      DecodeLeadingA(k, init, base);
      assert t[..|t| - 1] == seq(k, _ => 'A') + init;
      assert t[|t| - 1] == s[|s| - 1];
    }
  }

  lemma {:induction false} DecodeZeros(k: nat, base: nat)
    ensures AllUpper(seq(k, _ => 'A'))
    ensures Decode(seq(k, _ => 'A'), base) == 0
  {
    if k > 0 {
      DecodeZeros(k - 1, base);
      assert seq(k, _ => 'A')[..k - 1] == seq(k - 1, _ => 'A');
    }
  }

  /** With base 26 the letters always fit the numberToConvert/26 + 1 buffer. */
  lemma {:induction false} LettersFitBuffer(n: nat)
    ensures |Letters(n, ALPHABET_SIZE)| <= n / ALPHABET_SIZE + 1
    decreases n
  {
    if n > 0 {
      LettersFitBuffer(n / ALPHABET_SIZE);
    }
  }

  /** Base 26 never overruns: a non-negative number converts to its letters. */
  lemma Base26Converts(n: nat)
    ensures Converted(n, ALPHABET_SIZE) == Success(AlphaString(n, ALPHABET_SIZE))
  {
    LettersFitBuffer(n);
  }

  function Power(b: nat, k: nat): (p: nat)
    requires b >= 1
    ensures p >= 1
  {
    if k == 0 then 1 else b * Power(b, k - 1)
  }

  /** A number below base^k has at most k letters, and one at least base^k
      has more than k. */
  lemma {:induction false} LettersLength(n: nat, base: nat, k: nat)
    requires 2 <= base <= ALPHABET_SIZE
    ensures n < Power(base, k) ==> |Letters(n, base)| <= k
    ensures n >= Power(base, k) ==> |Letters(n, base)| > k
    decreases n
  {
    if n > 0 && k > 0 {
      LettersLength(n / base, base, k - 1);
      DivBound(n, base, Power(base, k - 1));
    } else if n > 0 {
      assert |Letters(n, base)| >= 1;
    }
  }

  lemma DivBound(n: nat, b: nat, p: nat)
    requires b >= 1
    ensures n < b * p <==> n / b < p
  {
    var q, r := n / b, n % b;
    assert n == q * b + r && 0 <= r < b;
    if q < p {
      assert q + 1 <= p;
      assert (q + 1) * b <= p * b;
    } else {
      assert q * b >= p * b;
    }
  }

  /** A base-26 number below 26^k has at most k letters, and one at least
      26^k has more than k. */
  lemma AlphaStringLength(n: nat, k: nat)
    requires k >= 1
    ensures n < Power(ALPHABET_SIZE, k) <==> |AlphaString(n, ALPHABET_SIZE)| <= k
  {
    LettersLength(n, ALPHABET_SIZE, k);
  }
}
