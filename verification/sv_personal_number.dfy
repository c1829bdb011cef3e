/** The Swedish personal identity number (personnummer): yyMMdd-SSx and a
    check digit computed by the Luhn scheme over the nine digits before it. */
module SvPersonalNumber {
  import opened Wrappers
  import opened Chars
  import opened Calendar
  import opened Random
  import opened Sexes
  import opened DateProducer
  import opened Luhn

  const NUMBER_LENGTH: nat := 11
  const VALIDITY_IN_YEARS: int := 120
  const MAX_SERIAL_NUMBER: int := 99

  /** Weights of the nine digits before the check digit. */
  const WEIGHTS: seq<int> := [2, 1, 2, 1, 2, 1, 2, 1, 2]

  // ---------------------------------------------------------------------
  // calculateChecksum
  // ---------------------------------------------------------------------

  /** The loop's contribution of one character: the tens and the units of
      its weighted value, each taken with Java's truncating operators. */
  function ProductDigits(c: char, weight: int): int {
    var product := JavaDigit(c) * weight;
    JavaDiv(product, 10) + JavaRem(product, 10)
  }

  /** The sum over the first `n` characters of a hyphen-free string. */
  function WeightedSum(t: string, n: nat): int
    requires n <= |WEIGHTS| && n <= |t|
  {
    if n == 0 then 0 else WeightedSum(t, n - 1) + ProductDigits(t[n - 1], WEIGHTS[n - 1])
  }

  /** The check digit of a sum: 0 for a multiple of ten, else ten minus the
      remainder. */
  function ChecksumOfSum(sum: int): int {
    if JavaRem(sum, 10) == 0 then 0 else 10 - JavaRem(sum, 10)
  }

  /** calculateChecksum as a value: hyphens are removed first; fewer than
      nine characters left make charAt fail. */
  function Checksum(s: string): Result<int> {
    var t := RemoveChar(s, '-');
    if |t| < |WEIGHTS| then Failure(IndexOutOfBounds)
    else Success(ChecksumOfSum(WeightedSum(t, |WEIGHTS|)))
  }

  /** calculateChecksum: the loop over the weights. */
  method CalculateChecksum(s: string) returns (r: Result<int>)
    ensures r == Checksum(s)
  {
    var t := RemoveChar(s, '-');
    var sum := 0;
    var i := 0;
    while i < |WEIGHTS|
      invariant 0 <= i <= |WEIGHTS| && i <= |t|
      invariant sum == WeightedSum(t, i)
    {
      if i == |t| {
        return Failure(IndexOutOfBounds);
      }
      var digit := JavaDigit(t[i]);
      var product := digit * WEIGHTS[i];
      sum := sum + JavaDiv(product, 10) + JavaRem(product, 10);
      i := i + 1;
    }
    if JavaRem(sum, 10) == 0 {
      return Success(0);
    }
    return Success(10 - JavaRem(sum, 10));
  }

  /** Hyphens do not change the checksum. */
  lemma HyphenIgnored(s: string)
    ensures Checksum(RemoveChar(s, '-')) == Checksum(s)
  {
    RemoveCharAbsent(RemoveChar(s, '-'), '-');
  }

  /** On digits the loop's sum is the Luhn sum in which the digit at index
      `n - 1` is doubled exactly when its weight is 2. */
  lemma {:induction false} WeightedSumIsLuhnSum(t: string, n: nat)
    requires n <= |WEIGHTS| && n <= |t| && AllDigits(t[..n])
    ensures WeightedSum(t, n) == LuhnSum(t[..n], n % 2 == 1)
  {
    if n > 0 {
      var s := t[..n];
      assert s[..n - 1] == t[..n - 1];
      assert s[n - 1] == t[n - 1];
      assert IsDigit(s[n - 1]);
      var doubled := n % 2 == 1;
      assert LuhnSum(s, doubled) == LuhnTerm(t[n - 1], doubled) + LuhnSum(t[..n - 1], (n - 1) % 2 == 1);
      WeightedSumIsLuhnSum(t, n - 1);
      WeightAt(n - 1);
      ProductIsLuhnTerm(t[n - 1], WEIGHTS[n - 1]);
    }
  }

  /** The weights alternate 2, 1, 2, ... from the first digit. */
  lemma WeightAt(i: nat)
    requires i < |WEIGHTS|
    ensures WEIGHTS[i] == if i % 2 == 0 then 2 else 1
  {
  }

  /** A digit weighted 1 contributes itself, weighted 2 its doubled digit sum. */
  lemma ProductIsLuhnTerm(c: char, weight: int)
    requires IsDigit(c) && (weight == 1 || weight == 2)
    ensures ProductDigits(c, weight) == LuhnTerm(c, weight == 2)
  {
  }

  /** Over nine digits the checksum is the Luhn check digit. */
  lemma ChecksumIsCheckDigit(t: string)
    requires |t| == |WEIGHTS| && AllDigits(t)
    ensures '-' !in t
    ensures Checksum(t) == Success(CheckDigit(t))
  {
    assert t[..|t|] == t;
    WeightedSumIsLuhnSum(t, |WEIGHTS|);
    NoHyphenInDigits(t);
  }

  /** Removing the hyphen of "a-b" when neither part holds one. */
  lemma DropHyphen(a: string, b: string)
    requires '-' !in a && '-' !in b
    ensures RemoveChar(a + "-" + b, '-') == a + b
  {
    RemoveCharConcat(a + "-", b, '-');
    RemoveCharConcat(a, "-", '-');
    RemoveCharAbsent(a, '-');
    RemoveCharAbsent(b, '-');
    RemoveCharHead('-', "", '-');
    assert RemoveChar("-", '-') == "" by { assert "-" == ['-'] + ""; }
    assert RemoveChar(a + "-", '-') == a;
  }

  // ---------------------------------------------------------------------
  // isValid
  // ---------------------------------------------------------------------

  /** isValid: false for a length other than eleven; otherwise the last
      character is parsed (a non-digit fails) and compared with the
      checksum. */
  function IsValid(s: string): Result<bool> {
    if |s| != NUMBER_LENGTH then Success(false)
    else if !IsDigit(s[|s| - 1]) then Failure(NumberFormat)
    else
      var c :- Checksum(s);
      Success(DigitValue(s[|s| - 1]) == c)
  }

  /** The layout of a personnummer: six digits, a hyphen, four digits. */
  predicate HyphenLayout(s: string) {
    |s| == NUMBER_LENGTH && s[6] == '-' && AllDigits(s[..6]) && AllDigits(s[7..])
  }

  /** Ten digits pass the Luhn check exactly when the last one is the
      checksum of the string. */
  lemma DigitsChecksum(t: string)
    requires |t| == 10 && AllDigits(t)
    ensures Checksum(t).Success?
    ensures LuhnValid(t) <==> Checksum(t) == Success(DigitValue(t[9]))
  {
    var u := t[..9];
    assert AllDigits(u) by {
      forall i | 0 <= i < 9 ensures IsDigit(u[i]) { assert u[i] == t[i]; }
    }
    assert u[..9] == u;
    NoHyphenInDigits(t);
    NoHyphenInDigits(u);
    WeightedSumPrefix(t, u, 9);
    ChecksumIsCheckDigit(u);
    assert Checksum(t) == Checksum(u);
    assert t == u + [t[9]];
    DigitRoundTrip(t[9]);
    CheckDigitCompletes(u);
  }

  /** A number in the hyphenated layout is valid exactly when its ten digits
      pass the Luhn check. */
  lemma IsValidIffLuhn(s: string)
    requires HyphenLayout(s)
    ensures IsValid(s).Success?
    ensures IsValid(s) == Success(true) <==> LuhnValid(RemoveChar(s, '-'))
  {
    var a, b := s[..6], s[7..];
    assert s == a + "-" + b;
    NoHyphenInDigits(a);
    NoHyphenInDigits(b);
    DropHyphen(a, b);
    var t := a + b;
    assert AllDigits(t) by {
      forall i | 0 <= i < |t| ensures IsDigit(t[i]) {
        if i < 6 { assert t[i] == a[i]; } else { assert t[i] == b[i - 6]; }
      }
    }
    assert t[9] == s[10];
    HyphenIgnored(s);
    DigitsChecksum(t);
  }

  lemma NoHyphenInDigits(s: string)
    requires AllDigits(s)
    ensures '-' !in s && RemoveChar(s, '-') == s
  {
    RemoveCharAbsent(s, '-');
  }

  /** The sum looks at the first `n` characters only. */
  lemma {:induction false} WeightedSumPrefix(t: string, u: string, n: nat)
    requires n <= |WEIGHTS| && n <= |t| && n <= |u| && t[..n] == u[..n]
    ensures WeightedSum(t, n) == WeightedSum(u, n)
  {
    if n > 0 {
      assert t[n - 1] == t[..n][n - 1] == u[..n][n - 1] == u[n - 1];
      assert t[..n - 1] == t[..n][..n - 1];
      assert u[..n - 1] == u[..n][..n - 1];
      WeightedSumPrefix(t, u, n - 1);
    }
  }

  // ---------------------------------------------------------------------
  // generate
  // ---------------------------------------------------------------------

  /** The unchecked part: format("%s%s%s-%02d%d", uu, MM, dd, serial, sex code). */
  function Body(d: Date, serial: int, sexCode: int): (b: string)
    requires 1 <= d.month <= 12 && 1 <= d.day <= 31
    requires 0 <= serial <= MAX_SERIAL_NUMBER && 0 <= sexCode <= 9
    ensures |b| == 10 && b[6] == '-'
    ensures AllDigits(b[..6]) && AllDigits(b[7..])
    ensures ParseDigits(b[..2]) == YearOfCentury(d.year)
    ensures ParseDigits(b[2..4]) == d.month && ParseDigits(b[4..6]) == d.day
    ensures ParseDigits(b[7..9]) == serial && DigitValue(b[9]) == sexCode
  {
    var yy, mm, dd, ss, x := TwoDigitYear(d.year), TwoDigits(d.month), TwoDigits(d.day), TwoDigits(serial), [DigitChar(sexCode)];
    BodyFields(yy, mm, dd, ss, x);
    yy + mm + dd + "-" + ss + x
  }

  lemma BodyFields(yy: string, mm: string, dd: string, ss: string, x: string)
    requires |yy| == 2 && |mm| == 2 && |dd| == 2 && |ss| == 2 && |x| == 1
    requires AllDigits(yy) && AllDigits(mm) && AllDigits(dd) && AllDigits(ss) && AllDigits(x)
    ensures var b := yy + mm + dd + "-" + ss + x;
            |b| == 10 && b[6] == '-' && b[..6] == yy + mm + dd && b[7..] == ss + x
            && b[9] == x[0] && AllDigits(b[..6]) && AllDigits(b[7..])
            && AllDigits(b[..2]) && AllDigits(b[2..4]) && AllDigits(b[4..6]) && AllDigits(b[7..9])
            && ParseDigits(b[..2]) == ParseDigits(yy) && ParseDigits(b[2..4]) == ParseDigits(mm)
            && ParseDigits(b[4..6]) == ParseDigits(dd) && ParseDigits(b[7..9]) == ParseDigits(ss)
  {
    var b := yy + mm + dd + "-" + ss + x;
    assert b[..2] == yy && b[2..4] == mm && b[4..6] == dd && b[7..9] == ss;
    assert b[..6] == yy + mm + dd;
    assert b[7..] == ss + x;
    forall i | 0 <= i < 6 ensures IsDigit(b[..6][i]) {
      if i < 2 { assert b[i] == yy[i]; } else if i < 4 { assert b[i] == mm[i - 2]; } else { assert b[i] == dd[i - 4]; }
    }
    forall i | 0 <= i < 3 ensures IsDigit(b[7..][i]) {
      if i < 2 { assert b[7 + i] == ss[i]; } else { assert b[9] == x[0]; }
    }
  }

  /** What a generated number says: the hyphenated layout, valid, its ten
      digits passing the Luhn check, the date in its first six digits and
      the sex in the parity of the ninth. */
  predicate Encodes(n: string, d: Date, sex: Sex) {
    HyphenLayout(n) && IsValid(n) == Success(true) && LuhnValid(RemoveChar(n, '-'))
    && ParseDigits(n[..2]) == YearOfCentury(d.year)
    && ParseDigits(n[2..4]) == d.month && ParseDigits(n[4..6]) == d.day
    && (DigitValue(n[9]) % 2 == 1 <==> sex == Male)
  }

  /** Ten characters with a hyphen at index 6 and digits elsewhere. */
  predicate HyphenBody(b: string) {
    |b| == 10 && b[6] == '-' && AllDigits(b[..6]) && AllDigits(b[7..])
  }

  /** The digits of a body, and its checksum: their Luhn check digit. */
  lemma BodyChecksum(b: string)
    requires HyphenBody(b)
    ensures RemoveChar(b, '-') == b[..6] + b[7..] && AllDigits(b[..6] + b[7..])
    ensures Checksum(b) == Success(CheckDigit(b[..6] + b[7..]))
  {
    var x, y := b[..6], b[7..];
    assert b == x + "-" + y;
    NoHyphenInDigits(x);
    NoHyphenInDigits(y);
    DropHyphen(x, y);
    var t := x + y;
    assert AllDigits(t) by {
      forall i | 0 <= i < |t| ensures IsDigit(t[i]) {
        if i < 6 { assert t[i] == x[i]; } else { assert t[i] == y[i - 6]; }
      }
    }
    HyphenIgnored(b);
    ChecksumIsCheckDigit(t);
  }

  /** Appending a digit to a body gives the hyphenated layout, whose digits
      are the body's followed by the new one. */
  lemma AppendDigit(b: string, c: nat)
    requires HyphenBody(b) && c <= 9
    ensures var n := b + [DigitChar(c)];
            HyphenLayout(n) && RemoveChar(n, '-') == b[..6] + b[7..] + [DigitChar(c)]
            && n[..2] == b[..2] && n[2..4] == b[2..4] && n[4..6] == b[4..6] && n[9] == b[9]
  {
    var n := b + [DigitChar(c)];
    var x, y := b[..6], b[7..] + [DigitChar(c)];
    assert n == x + "-" + y;
    assert AllDigits(y) by {
      forall i | 0 <= i < |y| ensures IsDigit(y[i]) {
        if i < 3 { assert y[i] == b[7..][i]; }
      }
    }
    NoHyphenInDigits(x);
    NoHyphenInDigits(y);
    DropHyphen(x, y);
    assert n[..6] == x && n[7..] == y;
  }

  /** The body followed by its checksum encodes the date and the sex. */
  lemma BodyEncodes(d: Date, sex: Sex, serial: int, index: nat)
    requires ValidDate(d) && 0 <= serial <= MAX_SERIAL_NUMBER && index < |SEX_FIELDS|
    ensures var body := Body(d, serial, SexCode(index, sex));
            Checksum(body).Success? && 0 <= Checksum(body).value <= 9
            && Encodes(body + IntToString(Checksum(body).value), d, sex)
  {
    var body := Body(d, serial, SexCode(index, sex));
    BodyChecksum(body);
    var t := body[..6] + body[7..];
    var c := CheckDigit(t);
    assert IntToString(c) == [DigitChar(c)];
    AppendDigit(body, c);
    CheckDigitCompletes(t);
    IsValidIffLuhn(body + [DigitChar(c)]);
  }

  // ---------------------------------------------------------------------
  // The provider
  // ---------------------------------------------------------------------

  /** SvNationalIdentificationNumberProvider: an issue date (the date of
      birth) and a sex that properties may set, filled at random when absent. */
  class SvPersonalNumberProvider {
    const rng: RandomSource
    var issueDate: Option<Date>
    var sex: Option<Sex>

    predicate Valid()
      reads this
    {
      issueDate.Some? ==> ValidDate(issueDate.value)
    }

    constructor(rng: RandomSource)
      ensures this.rng == rng && issueDate == None && sex == None && Valid()
    {
      this.rng := rng;
      issueDate := None;
      sex := None;
    }

    method SetIssueDate(d: Date)
      requires ValidDate(d)
      modifies this
      ensures issueDate == Some(d) && sex == old(sex) && Valid()
    {
      issueDate := Some(d);
    }

    method SetSex(s: Sex)
      modifies this
      ensures sex == Some(s) && issueDate == old(issueDate)
    {
      sex := Some(s);
    }

    /** get: an absent date is drawn within the last 120 years and an absent
        sex by one boolean draw; the number always encodes both. */
    method Get(now: DateTime) returns (r: string)
      requires ValidDateTime(now) && Valid()
      modifies this, rng
      ensures Valid() && issueDate.Some? && sex.Some?
      ensures old(issueDate).Some? ==> issueDate == old(issueDate)
      ensures old(sex).Some? ==> sex == old(sex)
      ensures old(issueDate).None? ==>
                NotAfter(PastWindowStart(now, VALIDITY_IN_YEARS).date, issueDate.value)
                && NotAfter(issueDate.value, now.date)
      ensures Encodes(r, issueDate.value, sex.value)
    {
      if issueDate.None? {
        var t := RandomDateInThePast(rng, now, VALIDITY_IN_YEARS);
        DateNotAfter(PastWindowStart(now, VALIDITY_IN_YEARS), t.value);
        DateNotAfter(t.value, now);
        issueDate := Some(t.value.date);
      }
      if sex.None? {
        var male := rng.TrueOrFalse();
        sex := Some(if male then Male else Female);
      }
      r := Generate(rng, issueDate.value, sex.value);
    }
  }

  /** generate: the serial and sex-digit draws, then the checksum. */
  method Generate(rng: RandomSource, d: Date, s: Sex) returns (r: string)
    requires ValidDate(d)
    modifies rng
    ensures Encodes(r, d, s)
  {
    var serial := rng.RandomInt(MAX_SERIAL_NUMBER);
    var index := rng.RandomInt(|SEX_FIELDS| - 1);
    var body := Body(d, serial, SexCode(index, s));
    BodyEncodes(d, s, serial, index);
    var check := CalculateChecksum(body);
    r := body + IntToString(check.value);
  }
}
