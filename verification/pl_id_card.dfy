/** The Polish identity card number: three letters, a check digit, five
    digits; the letters encode the year of issue. */
module PlIdCard {
  import opened Wrappers
  import opened Chars
  import opened Calendar
  import opened Random
  import opened AlphaNumber
  import opened JavaArrays
  import DateProducer

  const ISSUING_BEGIN: int := 2000
  const WEIGHTS: seq<int> := [7, 3, 1, 0, 7, 3, 1, 7, 3]
  const CHECKSUM_INDEX: nat := 3
  const DIGITS_PART_SIZE: nat := 5
  const MAX_DIGITS_PART_VALUE: int := 99999
  const LETTER_WEIGHT: int := 45
  const LETTERS_PART_SIZE: nat := 3
  const LETTER_VALUE_MODIFIER: int := 10
  const BASE_TEN: int := 10

  // ---------------------------------------------------------------------
  // checksum
  // ---------------------------------------------------------------------

  /** The value the checksum gives the character at `index`: letters count
      from 10 ('A'), digits from 0, and the check position counts nothing. */
  function CharValue(id: seq<char>, index: nat): int
    requires index < |id|
  {
    if index < CHECKSUM_INDEX then id[index] as int - 'A' as int + LETTER_VALUE_MODIFIER
    else if index > CHECKSUM_INDEX then id[index] as int - '0' as int
    else 0
  }

  /** The weighted sum of the first `n` positions. */
  function WeightedSum(id: seq<char>, n: nat): int
    requires n <= |WEIGHTS| <= |id|
  {
    if n == 0 then 0 else WeightedSum(id, n - 1) + WEIGHTS[n - 1] * CharValue(id, n - 1)
  }

  /** calculateChecksum as a value: the first character of the decimal
      remainder of the sum; an array shorter than the weights fails. */
  function Checksum(id: seq<char>): Result<char> {
    if |id| < |WEIGHTS| then Failure(IndexOutOfBounds)
    else Success(IntToString(JavaRem(WeightedSum(id, |WEIGHTS|), BASE_TEN))[0])
  }

  /** calculateChecksum: one turn per weight, reading the character only
      where its weight counts. */
  method CalculateChecksum(id: array<char>) returns (r: Result<char>)
    ensures r == Checksum(id[..])
  {
    var index := 0;
    var checksum := 0;
    while index < |WEIGHTS|
      invariant 0 <= index <= |WEIGHTS|
      invariant index <= id.Length || (index == CHECKSUM_INDEX + 1 && id.Length == CHECKSUM_INDEX)
      invariant id.Length >= |WEIGHTS| ==> checksum == WeightedSum(id[..], index)
    {
      var weight := WEIGHTS[index];
      var value := 0;
      if index < CHECKSUM_INDEX {
        if index >= id.Length {
          return Failure(IndexOutOfBounds);
        }
        value := id[index] as int - 'A' as int + LETTER_VALUE_MODIFIER;
      } else if index > CHECKSUM_INDEX {
        if index >= id.Length {
          return Failure(IndexOutOfBounds);
        }
        value := id[index] as int - '0' as int;
      }
      index := index + 1;
      checksum := checksum + weight * value;
    }
    r := Success(IntToString(JavaRem(checksum, BASE_TEN))[0]);
  }

  /** isValid: the character at the check position equals the checksum. */
  function IsValid(id: string): Result<bool> {
    var c :- Checksum(id);
    Success(id[CHECKSUM_INDEX] == c)
  }

  /** Three upper-case letters, then six digits. */
  predicate IdLayout(id: string) {
    |id| == |WEIGHTS| && AllUpper(id[..CHECKSUM_INDEX]) && AllDigits(id[CHECKSUM_INDEX..])
  }

  /** The character at the check position does not enter the checksum. */
  lemma {:induction false} WeightedSumIgnoresCheck(id: seq<char>, c: char, n: nat)
    requires n <= |WEIGHTS| <= |id|
    ensures WeightedSum(id[CHECKSUM_INDEX := c], n) == WeightedSum(id, n)
  {
    if n > 0 {
      WeightedSumIgnoresCheck(id, c, n - 1);
      assert CharValue(id[CHECKSUM_INDEX := c], n - 1) == CharValue(id, n - 1);
    }
  }

  lemma ChecksumIgnoresCheck(id: seq<char>, c: char)
    requires |id| >= |WEIGHTS|
    ensures Checksum(id[CHECKSUM_INDEX := c]) == Checksum(id)
  {
    WeightedSumIgnoresCheck(id, c, |WEIGHTS|);
  }

  /** With letters and digits in place the sum is not negative. */
  lemma {:induction false} WeightedSumNonNegative(id: seq<char>, n: nat)
    requires n <= |WEIGHTS| <= |id|
    requires AllUpper(id[..CHECKSUM_INDEX]) && AllDigits(id[CHECKSUM_INDEX + 1..|WEIGHTS|])
    ensures WeightedSum(id, n) >= 0
  {
    if n > 0 {
      WeightedSumNonNegative(id, n - 1);
      var i := n - 1;
      if i < CHECKSUM_INDEX {
        assert IsUpper(id[..CHECKSUM_INDEX][i]);
      } else if i > CHECKSUM_INDEX {
        assert IsDigit(id[CHECKSUM_INDEX + 1..|WEIGHTS|][i - CHECKSUM_INDEX - 1]);
      }
    }
  }

  /** The sum of the standard scheme, in which the check digit is weighted 9
      alongside the others. */
  function StandardSum(id: string): int
    requires |id| >= |WEIGHTS| && IsDigit(id[CHECKSUM_INDEX])
  {
    WeightedSum(id, |WEIGHTS|) + 9 * DigitValue(id[CHECKSUM_INDEX])
  }

  /** For letters and digits in place, isValid holds exactly when the
      standard weighted sum over all nine positions is a multiple of ten. */
  lemma IsValidIffStandard(id: string)
    requires IdLayout(id)
    ensures IsValid(id).Success?
    ensures IsValid(id) == Success(true) <==> StandardSum(id) % 10 == 0
  {
    assert IsDigit(id[CHECKSUM_INDEX..][0]);
    assert AllDigits(id[CHECKSUM_INDEX + 1..|WEIGHTS|]) by {
      var tail := id[CHECKSUM_INDEX + 1..|WEIGHTS|];
      forall i | 0 <= i < |tail| ensures IsDigit(tail[i]) {
        assert tail[i] == id[CHECKSUM_INDEX..][i + 1];
      }
    }
    WeightedSumNonNegative(id, |WEIGHTS|);
    var sum := WeightedSum(id, |WEIGHTS|);
    var v := DigitValue(id[CHECKSUM_INDEX]);
    assert IntToString(sum % 10) == [DigitChar(sum % 10)];
    DigitRoundTrip(id[CHECKSUM_INDEX]);
    NineComplement(sum, v);
  }

  lemma NineComplement(sum: nat, v: nat)
    requires v <= 9
    ensures (sum + 9 * v) % 10 == 0 <==> v == sum % 10
  {
  }

  /** Writing the checksum into the check position of letters and digits
      makes the number valid. */
  lemma CheckedIsValid(id: seq<char>)
    requires |id| == |WEIGHTS| && AllUpper(id[..CHECKSUM_INDEX]) && AllDigits(id[CHECKSUM_INDEX + 1..])
    ensures Checksum(id).Success? && IsDigit(Checksum(id).value)
    ensures IdLayout(id[CHECKSUM_INDEX := Checksum(id).value])
    ensures IsValid(id[CHECKSUM_INDEX := Checksum(id).value]) == Success(true)
  {
    assert id[CHECKSUM_INDEX + 1..|WEIGHTS|] == id[CHECKSUM_INDEX + 1..];
    WeightedSumNonNegative(id, |WEIGHTS|);
    var sum := WeightedSum(id, |WEIGHTS|);
    assert IntToString(sum % 10) == [DigitChar(sum % 10)];
    var c := Checksum(id).value;
    var checked := id[CHECKSUM_INDEX := c];
    ChecksumIgnoresCheck(id, c);
    assert checked[..CHECKSUM_INDEX] == id[..CHECKSUM_INDEX];
    assert AllDigits(checked[CHECKSUM_INDEX..]) by {
      forall i | 0 <= i < |checked| - CHECKSUM_INDEX ensures IsDigit(checked[CHECKSUM_INDEX..][i]) {
        if i > 0 {
          assert checked[CHECKSUM_INDEX..][i] == id[CHECKSUM_INDEX + 1..][i - 1];
        }
      }
    }
  }

  // ---------------------------------------------------------------------
  // the letter part
  // ---------------------------------------------------------------------

  /** The values fillLettersPart may draw for a year: 45 per year since 2000. */
  predicate Window(year: int, range: int) {
    (year - ISSUING_BEGIN) * LETTER_WEIGHT <= range <= (year - ISSUING_BEGIN) * LETTER_WEIGHT + LETTER_WEIGHT
  }

  /** The letters written for a drawn value: its base-26 spelling padded
      with 'A' to three. */
  function LettersPrefix(range: nat): (p: string)
    ensures AllUpper(p) && |p| >= LETTERS_PART_SIZE
  {
    var s := AlphaString(range, ALPHABET_SIZE);
    var p := LeftPad(s, LETTERS_PART_SIZE, 'A');
    LeftPadSpec(s, LETTERS_PART_SIZE, 'A');
    assert AllUpper(p) by {
      forall i | 0 <= i < |p| ensures IsUpper(p[i]) {
        if i >= |p| - |s| {
          assert p[i] == p[|p| - |s|..][i - (|p| - |s|)] == s[i - (|p| - |s|)];
        }
      }
    }
    p
  }

  /** Three letters hold the drawn value exactly when it is below 26^3. */
  lemma LettersPrefixDecodes(range: nat)
    requires range < Power(ALPHABET_SIZE, LETTERS_PART_SIZE)
    ensures |LettersPrefix(range)| == LETTERS_PART_SIZE
    ensures Decode(LettersPrefix(range), ALPHABET_SIZE) == range
  {
    var s := AlphaString(range, ALPHABET_SIZE);
    AlphaStringLength(range, LETTERS_PART_SIZE);
    var k := LETTERS_PART_SIZE - |s|;
    assert LettersPrefix(range) == seq(k, _ => 'A') + s by {
      if k == 0 {
        assert seq(k, _ => 'A') + s == s;
      }
    }
    DecodeLeadingA(k, s, ALPHABET_SIZE);
    DecodeAlphaString(range, ALPHABET_SIZE);
  }

  /** Up to the year 2389 every drawn value fits three letters, so the
      letters of the number decode to the value drawn. */
  lemma ThreeLettersUntil2389(year: int, range: nat)
    requires ISSUING_BEGIN <= year <= 2389 && Window(year, range)
    ensures LettersPrefix(range)[..LETTERS_PART_SIZE] == LettersPrefix(range)
    ensures Decode(LettersPrefix(range), ALPHABET_SIZE) == range
  {
    assert Power(ALPHABET_SIZE, LETTERS_PART_SIZE) == 17576;
    LettersPrefixDecodes(range);
  }

  /** The number of letters a drawn value takes: three below 26^3, four
      from 26^3 up to 26^4. */
  lemma LettersCount(range: nat)
    ensures |LettersPrefix(range)| == LETTERS_PART_SIZE <==> range < 17576
    ensures 17576 <= range < 456976 ==> |LettersPrefix(range)| == 4
  {
    AlphaStringLength(range, 3);
    AlphaStringLength(range, 4);
    assert Power(ALPHABET_SIZE, 3) == 17576;
    assert Power(ALPHABET_SIZE, 4) == 456976;
    var s := AlphaString(range, ALPHABET_SIZE);
    LeftPadSpec(s, LETTERS_PART_SIZE, 'A');
  }

  /** In 2390 the window straddles 26^3: a draw below 17576 gives three
      letters and one from 17576 on already gives four. */
  lemma FourLettersIn2390(year: int, low: nat, high: nat)
    requires year == 2390 && low == 17575 && high == 17576
    ensures Window(year, low) && |LettersPrefix(low)| == LETTERS_PART_SIZE
    ensures Window(year, high) && |LettersPrefix(high)| == 4
  {
    LettersCount(low);
    LettersCount(high);
  }

  /** From 2391 on every drawn value needs at least four letters, exactly
      four while the window stays below 26^4 (up to the year 12154), and the
      number keeps only the first three: the letters no longer encode the
      value. */
  lemma FourLettersFrom2391(year: int, range: nat)
    requires 2391 <= year && Window(year, range)
    ensures |LettersPrefix(range)| >= 4
    ensures year <= 12154 ==> |LettersPrefix(range)| == 4
  {
    LettersCount(range);
  }

  /** fillLettersPart: draws the value for the year, spells it and copies
      the padded letters to the start of the array. */
  method FillLettersPart(rng: RandomSource, year: int, id: array<char>) returns (o: Outcome, ghost range: nat)
    requires year >= ISSUING_BEGIN
    modifies rng, id
    ensures Window(year, range)
    ensures |LettersPrefix(range)| > id.Length ==> o == Fail(IndexOutOfBounds) && id[..] == old(id[..])
    ensures |LettersPrefix(range)| <= id.Length ==>
              o == Pass && id[..] == LettersPrefix(range) + old(id[|LettersPrefix(range)|..])
    ensures o == Pass ==> id[..LETTERS_PART_SIZE] == LettersPrefix(range)[..LETTERS_PART_SIZE]
                          && AllUpper(id[..LETTERS_PART_SIZE])
  {
    var maxPrefix := (year - ISSUING_BEGIN) * LETTER_WEIGHT;
    var drawn := rng.RandomBetween(maxPrefix, maxPrefix + LETTER_WEIGHT);
    range := drawn;
    var prefix := ConvertToString(drawn, ALPHABET_SIZE);
    Base26Converts(drawn);
    var charArray := LeftPad(prefix.value, LETTERS_PART_SIZE, 'A');
    assert charArray == LettersPrefix(range);
    o := ArrayCopy(charArray, id, 0);
    assert old(id[..0]) == [];
    if o == Pass {
      assert id[..LETTERS_PART_SIZE] == charArray[..LETTERS_PART_SIZE];
      assert AllUpper(id[..LETTERS_PART_SIZE]) by {
        forall i | 0 <= i < LETTERS_PART_SIZE ensures IsUpper(id[..LETTERS_PART_SIZE][i]) {
          assert id[..LETTERS_PART_SIZE][i] == charArray[i];
        }
      }
    }
  }

  /** fillDigitsPart: a draw up to 99999, padded with '0' to five digits,
      copied after the check position. */
  method FillDigitsPart(rng: RandomSource, id: array<char>) returns (o: Outcome, ghost n: nat)
    modifies rng, id
    ensures n <= MAX_DIGITS_PART_VALUE
    ensures id.Length < |WEIGHTS| ==> o == Fail(IndexOutOfBounds) && id[..] == old(id[..])
    ensures id.Length >= |WEIGHTS| ==>
              o == Pass && id[..] == old(id[..CHECKSUM_INDEX + 1]) + ZeroPad(n, DIGITS_PART_SIZE)
                                     + old(id[|WEIGHTS|..])
    ensures id.Length >= |WEIGHTS| ==>
              id[..CHECKSUM_INDEX + 1] == old(id[..CHECKSUM_INDEX + 1])
              && AllDigits(id[CHECKSUM_INDEX + 1..|WEIGHTS|])
  {
    var drawn := rng.RandomInt(MAX_DIGITS_PART_VALUE);
    n := drawn;
    var num := IntToString(drawn);
    var digits := LeftPad(num, DIGITS_PART_SIZE, '0');
    ZeroPadSpec(drawn, DIGITS_PART_SIZE);
    assert |digits| == DIGITS_PART_SIZE;
    o := ArrayCopy(digits, id, CHECKSUM_INDEX + 1);
    if o == Pass {
      assert id[CHECKSUM_INDEX + 1..|WEIGHTS|] == digits;
    }
  }

  // ---------------------------------------------------------------------
  // get
  // ---------------------------------------------------------------------

  /** get(date): a year before 2000 is refused; otherwise letters, digits
      and the checksum are written into a nine-character array. The number
      is valid and starts with the first three letters of a value drawn for
      the year (`range`); the copy of the letters fails only once they
      outgrow the array. */
  method GetForDate(rng: RandomSource, date: Date) returns (r: Result<string>, ghost range: nat)
    modifies rng
    ensures date.year < ISSUING_BEGIN ==>
              r == Failure(IllegalArgument("Polish ID was introduced in 2000"))
              && rng.position == old(rng.position)
    ensures r.Success? ==> IdLayout(r.value) && IsValid(r.value) == Success(true)
    ensures r.Success? ==> Window(date.year, range)
                           && r.value[..LETTERS_PART_SIZE] == LettersPrefix(range)[..LETTERS_PART_SIZE]
    ensures date.year >= ISSUING_BEGIN && r.Failure? ==>
              (date.year - ISSUING_BEGIN) * LETTER_WEIGHT + LETTER_WEIGHT >= Power(ALPHABET_SIZE, |WEIGHTS|)
  {
    if date.year < ISSUING_BEGIN {
      return Failure(IllegalArgument("Polish ID was introduced in 2000")), 0;
    }
    var id := new char[|WEIGHTS|];
    var lettersDone;
    lettersDone, range := FillLettersPart(rng, date.year, id);
    if lettersDone.Fail? {
      AlphaStringLength(range, |WEIGHTS|);
      return Failure(lettersDone.error), range;
    }
    ghost var letters := id[..LETTERS_PART_SIZE];
    var digitsDone, n := FillDigitsPart(rng, id);
    ghost var unchecked := id[..];
    assert unchecked[..LETTERS_PART_SIZE] == letters;
    var checksum := CalculateChecksum(id);
    Assembled(unchecked);
    id[CHECKSUM_INDEX] := checksum.value;
    assert id[..] == unchecked[CHECKSUM_INDEX := checksum.value];
    r := Success(id[..]);
  }

  /** Letters in front and digits behind make the checked array a valid
      number. */
  lemma Assembled(unchecked: seq<char>)
    requires |unchecked| == |WEIGHTS|
    requires AllUpper(unchecked[..LETTERS_PART_SIZE]) && AllDigits(unchecked[CHECKSUM_INDEX + 1..|WEIGHTS|])
    ensures Checksum(unchecked).Success?
    ensures IdLayout(unchecked[CHECKSUM_INDEX := Checksum(unchecked).value])
    ensures IsValid(unchecked[CHECKSUM_INDEX := Checksum(unchecked).value]) == Success(true)
    ensures unchecked[CHECKSUM_INDEX := Checksum(unchecked).value][..LETTERS_PART_SIZE]
            == unchecked[..LETTERS_PART_SIZE]
  {
    assert unchecked[CHECKSUM_INDEX + 1..] == unchecked[CHECKSUM_INDEX + 1..|WEIGHTS|];
    CheckedIsValid(unchecked);
  }

  /** get(): a date between the start of 2000 and now, then get(date). In
      the year 2000 itself (or before) the draw has no room and fails. */
  method Get(rng: RandomSource, now: DateTime) returns (r: Result<string>, ghost year: int, ghost range: nat)
    requires ValidDateTime(now)
    modifies rng
    ensures now.date.year <= ISSUING_BEGIN ==> r.Failure?
    ensures ISSUING_BEGIN < now.date.year
            && (now.date.year - ISSUING_BEGIN) * LETTER_WEIGHT + LETTER_WEIGHT < Power(ALPHABET_SIZE, |WEIGHTS|)
            ==> r.Success?
    ensures r.Success? ==> IdLayout(r.value) && IsValid(r.value) == Success(true)
    ensures r.Success? ==> ISSUING_BEGIN <= year <= now.date.year && Window(year, range)
                           && r.value[..LETTERS_PART_SIZE] == LettersPrefix(range)[..LETTERS_PART_SIZE]
  {
    var dateTime := DateProducer.RandomDateBetweenYearAndNow(rng, now, ISSUING_BEGIN);
    if dateTime.Failure? {
      return Failure(dateTime.error), 0, 0;
    }
    var start := DateProducer.PastWindowStart(now, now.date.year - ISSUING_BEGIN);
    DateNotAfter(start, dateTime.value);
    DateNotAfter(dateTime.value, now);
    year := dateTime.value.date.year;
    r, range := GetForDate(rng, dateTime.value.date);
  }
}
