/** The Polish passport number: two letters (the series), a check digit and
    six digits, checked with the weights 7,3,9,1,7,3,1,7,3. */
module PlPassport {
  import opened Wrappers
  import opened Chars
  import opened AlphaNumber
  import opened JavaArrays

  const CHECKSUM_INDEX: nat := 2
  const WEIGHTS: seq<int> := [7, 3, 9, 1, 7, 3, 1, 7, 3]
  const PASSPORT_LENGTH: nat := 9
  const SERIES_LENGTH: nat := 2
  const DIGITS_LENGTH: nat := 6
  /** The value of 'A' in the letter table; the next letters count on. */
  const BASE_NUM: int := 10

  /** The static letterDigits map, shared by every provider: null until a
      provider has been constructed. */
  class LetterDigits {
    var table: Option<map<string, int>>

    constructor()
      ensures table == None
    {
      table := None;
    }
  }

  /** The map a constructor leaves behind: every one-letter upper-case
      string, 'A' as 10 up to 'Z' as 35, and nothing else. */
  ghost predicate Filled(m: map<string, int>) {
    (forall s :: s in m <==> |s| == 1 && IsUpper(s[0]))
    && (forall s :: s in m ==> m[s] == s[0] as int - 'A' as int + BASE_NUM)
  }

  // ---------------------------------------------------------------------
  // the two loops of fillChecksum and passportCheckSumIsValid
  // ---------------------------------------------------------------------

  /** The first loop over positions 0..n-1: each character looked up in the
      table; a position past the end or a character without an entry (or
      no table at all) throws. */
  function SeriesSum(table: Option<map<string, int>>, p: seq<char>, n: nat): Result<int>
    requires n <= SERIES_LENGTH
  {
    if n == 0 then Success(0)
    else
      var sum :- SeriesSum(table, p, n - 1);
      if |p| <= n - 1 then Failure(IndexOutOfBounds)
      else if table.None? || [p[n - 1]] !in table.value then Failure(NullPointer)
      else Success(sum + table.value[[p[n - 1]]] * WEIGHTS[n - 1])
  }

  /** The second loop over positions lo..n-1, with Character.getNumericValue. */
  function DigitSum(p: seq<char>, lo: nat, n: nat): Result<int>
    requires lo <= n <= PASSPORT_LENGTH
    decreases n
  {
    if n == lo then Success(0)
    else
      var sum :- DigitSum(p, lo, n - 1);
      if |p| <= n - 1 then Failure(IndexOutOfBounds)
      else Success(sum + NumericValue(p[n - 1]) * WEIGHTS[n - 1])
  }

  /** fillChecksum as a value: both loops, the check position skipped, and
      the first character of the decimal remainder. */
  function Checksum(table: Option<map<string, int>>, p: seq<char>): Result<char> {
    var letters :- SeriesSum(table, p, SERIES_LENGTH);
    var digits :- DigitSum(p, CHECKSUM_INDEX + 1, PASSPORT_LENGTH);
    Success(IntToString(JavaRem(letters + digits, 10))[0])
  }

  /** passportCheckSumIsValid as a value: the same sums with the check
      position included, and a remainder of zero. */
  function CheckSumIsValid(table: Option<map<string, int>>, p: seq<char>): Result<bool> {
    var letters :- SeriesSum(table, p, SERIES_LENGTH);
    var digits :- DigitSum(p, CHECKSUM_INDEX, PASSPORT_LENGTH);
    Success(JavaRem(letters + digits, 10) == 0)
  }

  /** Once a position fails, every longer sum fails the same way. */
  lemma {:induction false} DigitSumFailureSticks(p: seq<char>, lo: nat, i: nat, n: nat)
    requires lo <= i <= n <= PASSPORT_LENGTH && DigitSum(p, lo, i).Failure?
    ensures DigitSum(p, lo, n) == DigitSum(p, lo, i)
    decreases n
  {
    if n > i {
      DigitSumFailureSticks(p, lo, i, n - 1);
    }
  }

  /** The loop of the second kind, from `lo` to the end of the passport. */
  method SumDigits(p: seq<char>, lo: nat) returns (r: Result<int>)
    requires lo <= PASSPORT_LENGTH
    ensures r == DigitSum(p, lo, PASSPORT_LENGTH)
  {
    var checkSum := 0;
    for i := lo to PASSPORT_LENGTH
      invariant DigitSum(p, lo, i) == Success(checkSum)
    {
      if i >= |p| {
        DigitSumFailureSticks(p, lo, i + 1, PASSPORT_LENGTH);
        return Failure(IndexOutOfBounds);
      }
      var checkSumValue := NumericValue(p[i]);
      checkSum := checkSum + checkSumValue * WEIGHTS[i];
    }
    r := Success(checkSum);
  }

  /** The loop of the first kind, over the two series letters. */
  method SumSeries(letterDigits: LetterDigits, p: seq<char>) returns (r: Result<int>)
    ensures r == SeriesSum(letterDigits.table, p, SERIES_LENGTH)
  {
    var checkSum := 0;
    for i := 0 to SERIES_LENGTH
      invariant SeriesSum(letterDigits.table, p, i) == Success(checkSum)
    {
      if i >= |p| {
        return Failure(IndexOutOfBounds);
      }
      if letterDigits.table.None? || [p[i]] !in letterDigits.table.value {
        return Failure(NullPointer);
      }
      var checkSumValue := letterDigits.table.value[[p[i]]];
      checkSum := checkSum + checkSumValue * WEIGHTS[i];
    }
    r := Success(checkSum);
  }

  /** fillChecksum: the check digit is written at index 2, unless a loop
      throws first. */
  method FillChecksum(letterDigits: LetterDigits, passport: array<char>) returns (o: Outcome)
    modifies passport
    ensures Checksum(letterDigits.table, old(passport[..])).Failure? ==>
              o == Fail(Checksum(letterDigits.table, old(passport[..])).error) && passport[..] == old(passport[..])
    ensures Checksum(letterDigits.table, old(passport[..])).Success? ==>
              o == Pass
              && passport[..] == old(passport[..])[CHECKSUM_INDEX := Checksum(letterDigits.table, old(passport[..])).value]
  {
    var letters := SumSeries(letterDigits, passport[..]);
    if letters.Failure? {
      return Fail(letters.error);
    }
    var digits := SumDigits(passport[..], CHECKSUM_INDEX + 1);
    if digits.Failure? {
      return Fail(digits.error);
    }
    var checkSum := letters.value + digits.value;
    passport[CHECKSUM_INDEX] := IntToString(JavaRem(checkSum, 10))[0];
    o := Pass;
  }

  /** passportCheckSumIsValid: the static validator, over the shared table. */
  method PassportCheckSumIsValid(letterDigits: LetterDigits, passportNumber: string) returns (r: Result<bool>)
    ensures r == CheckSumIsValid(letterDigits.table, passportNumber)
  {
    var letters := SumSeries(letterDigits, passportNumber);
    if letters.Failure? {
      return Failure(letters.error);
    }
    var digits := SumDigits(passportNumber, CHECKSUM_INDEX);
    if digits.Failure? {
      return Failure(digits.error);
    }
    r := Success(JavaRem(letters.value + digits.value, 10) == 0);
  }

  // ---------------------------------------------------------------------
  // properties of the scheme
  // ---------------------------------------------------------------------

  /** Two upper-case letters, a character at the check position, six digits. */
  predicate Layout(p: seq<char>) {
    |p| == PASSPORT_LENGTH && IsUpper(p[0]) && IsUpper(p[1]) && AllDigits(p[CHECKSUM_INDEX + 1..])
  }

  lemma SeriesSumFilled(m: map<string, int>, p: seq<char>)
    requires Filled(m) && Layout(p)
    ensures SeriesSum(Some(m), p, SERIES_LENGTH).Success?
    ensures SeriesSum(Some(m), p, SERIES_LENGTH).value >= 0
  {
    assert [p[0]] in m && [p[1]] in m;
    assert SeriesSum(Some(m), p, 1).Success?;
  }

  /** With digits at positions lo..n-1 the sum is not negative. */
  lemma {:induction false} DigitSumDigits(p: seq<char>, lo: nat, n: nat)
    requires CHECKSUM_INDEX + 1 <= lo <= n <= PASSPORT_LENGTH == |p|
    requires AllDigits(p[CHECKSUM_INDEX + 1..])
    ensures DigitSum(p, lo, n).Success? && DigitSum(p, lo, n).value >= 0
    decreases n
  {
    if n > lo {
      DigitSumDigits(p, lo, n - 1);
      assert IsDigit(p[CHECKSUM_INDEX + 1..][n - 1 - (CHECKSUM_INDEX + 1)]);
    }
  }

  /** The sum fillChecksum takes over a number with letters and digits in
      place and the letter table filled. */
  function FillSum(m: map<string, int>, p: seq<char>): (s: nat)
    requires Filled(m) && Layout(p)
  {
    SeriesSumFilled(m, p);
    DigitSumDigits(p, CHECKSUM_INDEX + 1, PASSPORT_LENGTH);
    SeriesSum(Some(m), p, SERIES_LENGTH).value + DigitSum(p, CHECKSUM_INDEX + 1, PASSPORT_LENGTH).value
  }

  /** On the layout the checksum is the digit of the sum's remainder. */
  lemma ChecksumOnLayout(m: map<string, int>, p: seq<char>)
    requires Filled(m) && Layout(p)
    ensures Checksum(Some(m), p) == Success(DigitChar(FillSum(m, p) % 10))
  {
    SeriesSumFilled(m, p);
    DigitSumDigits(p, CHECKSUM_INDEX + 1, PASSPORT_LENGTH);
    var sum := FillSum(m, p);
    assert IntToString(sum % 10) == [DigitChar(sum % 10)];
  }

  /** Extending the digit sum down to the check position adds the value at
      the check position weighted 9. */
  lemma {:induction false} DigitSumShift(p: seq<char>, n: nat)
    requires CHECKSUM_INDEX + 1 <= n <= PASSPORT_LENGTH == |p|
    ensures DigitSum(p, CHECKSUM_INDEX + 1, n).Success? ==>
              DigitSum(p, CHECKSUM_INDEX, n).Success?
              && DigitSum(p, CHECKSUM_INDEX, n).value
                 == 9 * NumericValue(p[CHECKSUM_INDEX]) + DigitSum(p, CHECKSUM_INDEX + 1, n).value
    decreases n
  {
    if n > CHECKSUM_INDEX + 1 {
      DigitSumShift(p, n - 1);
    }
  }

  /** On the layout the validator asks whether the sum plus nine times the
      value at the check position is a multiple of ten. */
  lemma ValidatorOnLayout(m: map<string, int>, p: seq<char>)
    requires Filled(m) && Layout(p)
    ensures CheckSumIsValid(Some(m), p)
            == Success((FillSum(m, p) + 9 * NumericValue(p[CHECKSUM_INDEX])) % 10 == 0)
  {
    SeriesSumFilled(m, p);
    DigitSumDigits(p, CHECKSUM_INDEX + 1, PASSPORT_LENGTH);
    DigitSumShift(p, PASSPORT_LENGTH);
    JavaRemZero(FillSum(m, p) + 9 * NumericValue(p[CHECKSUM_INDEX]));
  }

  lemma JavaRemZero(x: int)
    ensures JavaRem(x, 10) == 0 <==> x % 10 == 0
  {
    if x < 0 {
      assert (-x) % 10 == 0 <==> x % 10 == 0;
    }
  }

  /** The check position does not enter the checksum's sums. */
  lemma {:induction false} DigitSumIgnoresCheck(p: seq<char>, c: char, n: nat)
    requires CHECKSUM_INDEX + 1 <= n <= PASSPORT_LENGTH && |p| > CHECKSUM_INDEX
    ensures DigitSum(p[CHECKSUM_INDEX := c], CHECKSUM_INDEX + 1, n) == DigitSum(p, CHECKSUM_INDEX + 1, n)
    decreases n
  {
    if n > CHECKSUM_INDEX + 1 {
      DigitSumIgnoresCheck(p, c, n - 1);
      if |p| > n - 1 {
        assert p[CHECKSUM_INDEX := c][n - 1] == p[n - 1];
      }
    }
  }

  lemma SumsIgnoreCheck(table: Option<map<string, int>>, p: seq<char>, c: char)
    requires |p| > CHECKSUM_INDEX
    ensures SeriesSum(table, p[CHECKSUM_INDEX := c], SERIES_LENGTH) == SeriesSum(table, p, SERIES_LENGTH)
    ensures DigitSum(p[CHECKSUM_INDEX := c], CHECKSUM_INDEX + 1, PASSPORT_LENGTH)
            == DigitSum(p, CHECKSUM_INDEX + 1, PASSPORT_LENGTH)
  {
    DigitSumIgnoresCheck(p, c, PASSPORT_LENGTH);
    var q := p[CHECKSUM_INDEX := c];
    assert q[0] == p[0] && q[1] == p[1];
    assert SeriesSum(table, q, 1) == SeriesSum(table, p, 1);
  }

  /** The check position does not enter the checksum. */
  lemma ChecksumIgnoresCheck(table: Option<map<string, int>>, p: seq<char>, c: char)
    requires |p| > CHECKSUM_INDEX
    ensures Checksum(table, p[CHECKSUM_INDEX := c]) == Checksum(table, p)
  {
    SumsIgnoreCheck(table, p, c);
  }

  lemma NineComplement(sum: int, d: int)
    requires 0 <= d <= 9 && sum >= 0
    ensures (sum + 9 * d) % 10 == 0 <==> d == sum % 10
  {
  }

  /** With a digit at the check position, the validator accepts exactly
      the numbers whose check digit is the checksum. */
  lemma ValidIffCheckDigit(m: map<string, int>, p: seq<char>)
    requires Filled(m) && Layout(p) && IsDigit(p[CHECKSUM_INDEX])
    ensures Checksum(Some(m), p).Success? && CheckSumIsValid(Some(m), p).Success?
    ensures CheckSumIsValid(Some(m), p) == Success(true) <==> p[CHECKSUM_INDEX] == Checksum(Some(m), p).value
  {
    ChecksumOnLayout(m, p);
    ValidatorOnLayout(m, p);
    NineComplement(FillSum(m, p), DigitValue(p[CHECKSUM_INDEX]));
    DigitRoundTrip(p[CHECKSUM_INDEX]);
  }

  /** Writing the checksum into the check position makes a valid number. */
  lemma CheckedIsValid(m: map<string, int>, p: seq<char>)
    requires Filled(m) && Layout(p)
    ensures Checksum(Some(m), p).Success? && IsDigit(Checksum(Some(m), p).value)
    ensures Layout(p[CHECKSUM_INDEX := Checksum(Some(m), p).value])
    ensures CheckSumIsValid(Some(m), p[CHECKSUM_INDEX := Checksum(Some(m), p).value]) == Success(true)
  {
    ChecksumOnLayout(m, p);
    var c := Checksum(Some(m), p).value;
    var q := p[CHECKSUM_INDEX := c];
    assert q[CHECKSUM_INDEX + 1..] == p[CHECKSUM_INDEX + 1..];
    ChecksumIgnoresCheck(Some(m), p, c);
    ValidIffCheckDigit(m, q);
  }

  /** The validator reads the check position with getNumericValue, so a
      letter whose value ends in the checksum digit ('A', 'K' or 'U' for
      0) is accepted there as well. */
  lemma ValidatorAcceptsLetterCheck(m: map<string, int>, p: seq<char>, c: char)
    requires Filled(m) && Layout(p) && IsUpper(c)
    requires (c as int - 'A' as int + BASE_NUM) % 10 == FillSum(m, p) % 10
    ensures CheckSumIsValid(Some(m), p[CHECKSUM_INDEX := c]) == Success(true)
  {
    var q := p[CHECKSUM_INDEX := c];
    assert q[CHECKSUM_INDEX + 1..] == p[CHECKSUM_INDEX + 1..];
    SumsIgnoreCheck(Some(m), p, c);
    assert FillSum(m, q) == FillSum(m, p);
    ValidatorOnLayout(m, q);
    NineFold(FillSum(m, p), c as int - 'A' as int + BASE_NUM);
  }

  lemma NineFold(sum: nat, v: nat)
    requires v % 10 == sum % 10
    ensures (sum + 9 * v) % 10 == 0
  {
    var r := sum % 10;
    var a, b := sum / 10, v / 10;
    assert sum == 10 * a + r && v == 10 * b + r;
    assert sum + 9 * v == 10 * (a + 9 * b + r);
  }

  /** Without the table (no provider constructed yet) the validator throws. */
  lemma NoTableNoValidation(p: seq<char>)
    requires |p| >= 1
    ensures CheckSumIsValid(None, p) == Failure(NullPointer)
  {
    assert SeriesSum(None, p, 1) == Failure(NullPointer);
  }

  /** A lower-case series letter has no entry in the table: the validator
      throws rather than answering. */
  lemma LowerSeriesThrows(m: map<string, int>, p: seq<char>)
    requires Filled(m) && |p| >= 1 && IsLower(p[0])
    ensures CheckSumIsValid(Some(m), p) == Failure(NullPointer)
  {
    assert [p[0]] !in m;
    assert SeriesSum(Some(m), p, 1) == Failure(NullPointer);
  }

  // ---------------------------------------------------------------------
  // the provider
  // ---------------------------------------------------------------------

  /** PlPassportNumberProvider: its alphabet, and the shared letter table
      its constructor fills. */
  class PlPassportNumberProvider {
    var alphabet: seq<string>
    const letterDigits: LetterDigits

    ghost predicate Valid()
      reads this, letterDigits
    {
      letterDigits.table.Some? && Filled(letterDigits.table.value)
    }

    /** The constructor: the alphabet list, then every letter entered in
        the table with the values 10 upwards. */
    constructor(letterDigits: LetterDigits)
      modifies letterDigits
      ensures this.letterDigits == letterDigits && Valid()
      ensures |alphabet| == ALPHABET_SIZE && forall i :: 0 <= i < ALPHABET_SIZE ==> alphabet[i] == [Letter(i)]
    {
      this.letterDigits := letterDigits;
      var letters := GenerateAlphabetList();
      alphabet := letters;
      new;
      var baseNum := BASE_NUM;
      var table: map<string, int> := map[];
      for k := 0 to |letters|
        invariant baseNum == BASE_NUM + k
        invariant forall s :: s in table <==> |s| == 1 && 'A' <= s[0] && s[0] as int < 'A' as int + k
        invariant forall s :: s in table ==> table[s] == s[0] as int - 'A' as int + BASE_NUM
      {
        assert letters[k] == [Letter(k)];
        forall s ensures s == letters[k] <==> |s| == 1 && s[0] as int == 'A' as int + k {
          if |s| == 1 && s[0] as int == 'A' as int + k {
            assert s == [s[0]];
          }
        }
        table := table[letters[k] := baseNum];
        baseNum := baseNum + 1;
      }
      letterDigits.table := Some(table);
    }

    /** get: two random letters upper-cased, six random digits, then the
        check digit; the series and digits are the unseeded
        randomAlphabetic and randomNumeric draws. The number passes the
        validator. */
    method Get(series: string, digits: string) returns (r: string)
      requires Valid()
      requires |series| == SERIES_LENGTH && IsLetter(series[0]) && IsLetter(series[1])
      requires |digits| == DIGITS_LENGTH && AllDigits(digits)
      ensures Layout(r) && IsDigit(r[CHECKSUM_INDEX])
      ensures r[..SERIES_LENGTH] == Upper(series) && r[CHECKSUM_INDEX + 1..] == digits
      ensures CheckSumIsValid(letterDigits.table, r) == Success(true)
    {
      var passport := new char[PASSPORT_LENGTH];
      var randomSeries := Upper(series);
      var seriesDone := ArrayCopy(randomSeries, passport, 0);
      var digitsDone := ArrayCopy(digits, passport, CHECKSUM_INDEX + 1);
      ghost var unchecked := passport[..];
      assert unchecked[..SERIES_LENGTH] == randomSeries;
      assert unchecked[CHECKSUM_INDEX + 1..] == digits;
      CheckedIsValid(letterDigits.table.value, unchecked);
      var checksumDone := FillChecksum(letterDigits, passport);
      r := passport[..];
      assert r[..SERIES_LENGTH] == unchecked[..SERIES_LENGTH];
      assert r[CHECKSUM_INDEX + 1..] == unchecked[CHECKSUM_INDEX + 1..];
    }
  }
}
