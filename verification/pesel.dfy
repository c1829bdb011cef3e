/** PESEL, the Polish national identification number: yyMMdd with the
    century folded into the month, a three-digit serial, a sex digit and a
    weighted mod-10 check digit. */
module Pesel {
  import opened Wrappers
  import opened Chars
  import opened Calendar
  import opened Random
  import opened Sexes
  import opened DateProducer

  const NUMBER_LENGTH: nat := 11
  const VALIDITY_IN_YEARS: int := 10
  const BEGIN_YEAR: int := 1800
  const PERIOD_FACTOR: int := 100
  const MAX_SERIAL_NUMBER: int := 999

  /** Month offsets for the centuries from 1800 on. */
  const PERIOD_WEIGHTS: seq<int> := [80, 0, 20, 40, 60]

  /** Weights of the first ten digits. */
  const WEIGHTS: seq<int> := [1, 3, 7, 9, 1, 3, 7, 9, 1, 3]

  // ---------------------------------------------------------------------
  // Checksum
  // ---------------------------------------------------------------------

  /** The weighted sum of the first `n` characters, each read with
      Character.digit (so a non-digit counts as -1). */
  function WeightedSum(s: string, n: nat): int
    requires n <= |WEIGHTS| && n <= |s|
  {
    if n == 0 then 0 else WeightedSum(s, n - 1) + JavaDigit(s[n - 1]) * WEIGHTS[n - 1]
  }

  /** calculateChecksum as a value: the sum's Java remainder, and ten minus
      it unless it is zero. */
  function Checksum(s: string): int
    requires |s| >= |WEIGHTS|
  {
    var checksum := JavaRem(WeightedSum(s, |WEIGHTS|), 10);
    if checksum == 0 then 0 else 10 - checksum
  }

  /** calculateChecksum: the loop over the weights. */
  method CalculateChecksum(s: string) returns (c: int)
    requires |s| >= |WEIGHTS|
    ensures c == Checksum(s)
  {
    var sum := 0;
    var i := 0;
    while i < |WEIGHTS|
      invariant 0 <= i <= |WEIGHTS|
      invariant sum == WeightedSum(s, i)
    {
      var digit := JavaDigit(s[i]);
      sum := sum + digit * WEIGHTS[i];
      i := i + 1;
    }
    var checksum := JavaRem(sum, 10);
    if checksum == 0 {
      return 0;
    }
    return 10 - checksum;
  }

  lemma {:induction false} WeightedSumNonNegative(s: string, n: nat)
    requires n <= |WEIGHTS| && n <= |s|
    requires AllDigits(s[..n])
    ensures WeightedSum(s, n) >= 0
  {
    if n > 0 {
      assert s[..n - 1] == s[..n][..n - 1];
      WeightedSumNonNegative(s, n - 1);
      assert IsDigit(s[..n][n - 1]);
    }
  }

  /** Over ten digits the check digit is a single digit, and it is the one
      digit that brings the weighted sum to a multiple of ten. */
  lemma ChecksumCompletes(s: string)
    requires |s| >= |WEIGHTS| && AllDigits(s[..|WEIGHTS|])
    ensures 0 <= Checksum(s) <= 9
    ensures (WeightedSum(s, |WEIGHTS|) + Checksum(s)) % 10 == 0
  {
    WeightedSumNonNegative(s, |WEIGHTS|);
  }

  /** The checksum looks at the first ten characters only. */
  lemma {:induction false} WeightedSumPrefix(s: string, t: string, n: nat)
    requires n <= |WEIGHTS| && n <= |s| && n <= |t|
    requires s[..n] == t[..n]
    ensures WeightedSum(s, n) == WeightedSum(t, n)
  {
    if n > 0 {
      assert s[n - 1] == s[..n][n - 1] == t[..n][n - 1] == t[n - 1];
      assert s[..n - 1] == s[..n][..n - 1];
      assert t[..n - 1] == t[..n][..n - 1];
      WeightedSumPrefix(s, t, n - 1);
    }
  }

  // ---------------------------------------------------------------------
  // isValid
  // ---------------------------------------------------------------------

  /** isValid: false for a length other than eleven; otherwise the last
      character, parsed as an int (a non-digit fails the parse), must equal
      the checksum of the first ten. */
  function IsValid(s: string): Result<bool> {
    if |s| != NUMBER_LENGTH then Success(false)
    else if !IsDigit(s[|s| - 1]) then Failure(NumberFormat)
    else Success(DigitValue(s[|s| - 1]) == Checksum(s))
  }

  /** For eleven digits, isValid holds exactly when the weighted sum with the
      last digit added is a multiple of ten. */
  lemma IsValidSpec(s: string)
    ensures |s| != NUMBER_LENGTH ==> IsValid(s) == Success(false)
    ensures |s| == NUMBER_LENGTH && AllDigits(s) ==>
              (IsValid(s) == Success(true) <==> (WeightedSum(s, 10) + DigitValue(s[10])) % 10 == 0)
  {
    if |s| == NUMBER_LENGTH && AllDigits(s) {
      assert AllDigits(s[..10]);
      ChecksumCompletes(s);
    }
  }

  /** Ten digits followed by their checksum pass isValid. */
  lemma CompletedIsValid(body: string)
    requires |body| == 10 && AllDigits(body)
    ensures var n := body + IntToString(Checksum(body));
            |n| == NUMBER_LENGTH && AllDigits(n) && n[..10] == body && IsValid(n) == Success(true)
  {
    assert body[..10] == body;
    ChecksumCompletes(body);
    var n := body + IntToString(Checksum(body));
    assert IntToString(Checksum(body)) == [DigitChar(Checksum(body))];
    assert n[..10] == body;
    WeightedSumPrefix(n, body, 10);
  }

  // ---------------------------------------------------------------------
  // Date and sex fields
  // ---------------------------------------------------------------------

  /** The years calculateMonth can index PERIOD_WEIGHTS for: Java's
      truncating division sends 1701..1799 to index 0 as well. */
  predicate SupportedYear(year: int) {
    1701 <= year <= 2299
  }

  /** calculateMonth: the month plus the offset of its century; a year
      outside the table fails with an index out of bounds. */
  function CalculateMonth(month: int, year: int): (r: Result<int>)
    ensures r.Success? <==> SupportedYear(year)
    ensures 1701 <= year <= 1899 ==> r == Success(month + 80)
    ensures 1900 <= year <= 1999 ==> r == Success(month)
    ensures 2000 <= year <= 2099 ==> r == Success(month + 20)
    ensures 2100 <= year <= 2199 ==> r == Success(month + 40)
    ensures 2200 <= year <= 2299 ==> r == Success(month + 60)
  {
    var index := JavaDiv(year - BEGIN_YEAR, PERIOD_FACTOR);
    if 0 <= index < |PERIOD_WEIGHTS| then Success(month + PERIOD_WEIGHTS[index])
    else Failure(IndexOutOfBounds)
  }

  /** The century a PESEL's encoded month stands for. */
  function CenturyOf(encodedMonth: int): int {
    var band := encodedMonth / 20;
    if band == 4 then 1800 else if band == 0 then 1900 else if band == 1 then 2000
    else if band == 2 then 2100 else 2200
  }

  /** For the years 1800..2299 the two year digits and the encoded month give
      back the full year and the month. */
  lemma MonthEncodingRoundTrip(month: int, year: int)
    requires 1 <= month <= 12 && 1800 <= year <= 2299
    ensures CalculateMonth(month, year).Success?
    ensures var m := CalculateMonth(month, year).value;
            0 <= m <= 99 && m % 20 == month && CenturyOf(m) + YearOfCentury(year) == year
  {
  }

  /** Truncating division gives the eighteenth century the offset of the
      nineteenth, so such a date reads back a hundred years later. */
  lemma EighteenthCenturyShift()
    ensures CalculateMonth(5, 1750) == Success(85)
    ensures CenturyOf(85) + YearOfCentury(1750) == 1850
  {
  }

  /** The unchecked ten digits: format("%s%02d%02d%03d%d", uu, month, day,
      serial, sex code). */
  function Body(year: int, encodedMonth: int, day: int, serial: int, sexCode: int): (b: string)
    requires 0 <= encodedMonth <= 99 && 0 <= day <= 99
    requires 0 <= serial <= MAX_SERIAL_NUMBER && 0 <= sexCode <= 9
    ensures |b| == 10 && AllDigits(b)
    ensures ParseDigits(b[..2]) == YearOfCentury(year)
    ensures ParseDigits(b[2..4]) == encodedMonth
    ensures ParseDigits(b[4..6]) == day
    ensures ParseDigits(b[6..9]) == serial
    ensures DigitValue(b[9]) == sexCode
  {
    ZeroPadSpec(serial, 3);
    var b := TwoDigitYear(year) + TwoDigits(encodedMonth) + TwoDigits(day) + ZeroPad(serial, 3) + [DigitChar(sexCode)];
    BodyFields(TwoDigitYear(year), TwoDigits(encodedMonth), TwoDigits(day), ZeroPad(serial, 3), [DigitChar(sexCode)]);
    b
  }

  /** The five fields of the body sit at fixed positions. */
  lemma BodyFields(yy: string, mm: string, dd: string, sss: string, x: string)
    requires |yy| == 2 && |mm| == 2 && |dd| == 2 && |sss| == 3 && |x| == 1
    requires AllDigits(yy) && AllDigits(mm) && AllDigits(dd) && AllDigits(sss) && AllDigits(x)
    ensures var b := yy + mm + dd + sss + x;
            |b| == 10 && AllDigits(b)
            && b[..2] == yy && b[2..4] == mm && b[4..6] == dd && b[6..9] == sss && b[9] == x[0]
  {
    var b := yy + mm + dd + sss + x;
    forall i | 0 <= i < 10 ensures IsDigit(b[i]) {
      if i < 2 { assert b[i] == yy[i]; }
      else if i < 4 { assert b[i] == mm[i - 2]; }
      else if i < 6 { assert b[i] == dd[i - 4]; }
      else if i < 9 { assert b[i] == sss[i - 6]; }
      else { assert b[i] == x[0]; }
    }
  }

  /** What a generated number says: eleven digits passing isValid, whose
      fields encode the date (century in the month) and the sex. */
  predicate Encodes(n: string, d: Date, sex: Sex) {
    |n| == NUMBER_LENGTH && AllDigits(n) && IsValid(n) == Success(true)
    && CalculateMonth(d.month, d.year).Success?
    && ParseDigits(n[..2]) == YearOfCentury(d.year)
    && ParseDigits(n[2..4]) == CalculateMonth(d.month, d.year).value
    && ParseDigits(n[4..6]) == d.day
    && (DigitValue(n[9]) % 2 == 1 <==> sex == Male)
  }

  lemma BodyEncodes(d: Date, sex: Sex, serial: int, index: nat)
    requires ValidDate(d) && SupportedYear(d.year)
    requires 0 <= serial <= MAX_SERIAL_NUMBER && index < |SEX_FIELDS|
    ensures var body := Body(d.year, CalculateMonth(d.month, d.year).value, d.day, serial, SexCode(index, sex));
            Encodes(body + IntToString(Checksum(body)), d, sex)
  {
    var month := CalculateMonth(d.month, d.year).value;
    var code := SexCode(index, sex);
    var body := Body(d.year, month, d.day, serial, code);
    CompletedIsValid(body);
    CheckedFields(body, IntToString(Checksum(body)));
  }

  /** Appending the check digit leaves the fields of the body in place. */
  lemma CheckedFields(body: string, check: string)
    requires |body| == 10
    ensures var n := body + check;
            n[..2] == body[..2] && n[2..4] == body[2..4] && n[4..6] == body[4..6] && n[9] == body[9]
  {
  }

  // ---------------------------------------------------------------------
  // The provider
  // ---------------------------------------------------------------------

  /** PlNationalIdentificationNumberProvider: an issue date and a sex that
      properties may set, filled at random when absent. */
  class PeselProvider {
    const rng: RandomSource
    var issueDate: Option<Date>
    var sex: Option<Sex>

    predicate Valid()
      reads this
    {
      issueDate.Some? ==> ValidDate(issueDate.value)
    }

    constructor(rng: RandomSource)
      ensures this.rng == rng && issueDate == None && sex == None && Valid()
    {
      this.rng := rng;
      issueDate := None;
      sex := None;
    }

    method SetIssueDate(d: Date)
      requires ValidDate(d)
      modifies this
      ensures issueDate == Some(d) && sex == old(sex) && Valid()
    {
      issueDate := Some(d);
    }

    method SetSex(s: Sex)
      modifies this
      ensures sex == Some(s) && issueDate == old(issueDate)
    {
      sex := Some(s);
    }

    /** get: an absent issue date is drawn within the last ten years and an
        absent sex by one boolean draw; then the number is generated. */
    method Get(now: DateTime) returns (r: Result<string>)
      requires ValidDateTime(now) && Valid()
      modifies this, rng
      ensures Valid() && issueDate.Some? && sex.Some?
      ensures old(issueDate).Some? ==> issueDate == old(issueDate)
      ensures old(sex).Some? ==> sex == old(sex)
      ensures old(issueDate).None? ==>
                NotAfter(PastWindowStart(now, VALIDITY_IN_YEARS).date, issueDate.value)
                && NotAfter(issueDate.value, now.date)
      ensures r.Success? <==> SupportedYear(issueDate.value.year)
      ensures r.Success? ==> Encodes(r.value, issueDate.value, sex.value)
    {
      if issueDate.None? {
        var t := RandomDateInThePast(rng, now, VALIDITY_IN_YEARS);
        DateNotAfter(PastWindowStart(now, VALIDITY_IN_YEARS), t.value);
        DateNotAfter(t.value, now);
        issueDate := Some(t.value.date);
      }
      if sex.None? {
        var male := rng.TrueOrFalse();
        sex := Some(if male then Male else Female);
      }
      r := Generate(issueDate.value, sex.value);
    }

    /** generate: the encoded month first (it may fail), then the serial and
        sex-digit draws, then the checksum. */
    method Generate(d: Date, s: Sex) returns (r: Result<string>)
      requires ValidDate(d)
      modifies rng
      ensures r.Success? <==> SupportedYear(d.year)
      ensures r.Success? ==> Encodes(r.value, d, s)
    {
      var month := CalculateMonth(d.month, d.year);
      if month.Failure? {
        return Failure(month.error);
      }
      var serial := rng.RandomInt(MAX_SERIAL_NUMBER);
      var index := rng.RandomInt(|SEX_FIELDS| - 1);
      var body := Body(d.year, month.value, d.day, serial, SexCode(index, s));
      var check := CalculateChecksum(body);
      BodyEncodes(d, s, serial, index);
      r := Success(body + IntToString(check));
    }
  }
}
