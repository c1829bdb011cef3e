/** The Swedish VAT number (momsnummer): "SE", a ten-digit organisation or
    personal number passing the Luhn check, and "01". */
module SvVat {
  import opened Wrappers
  import opened Chars
  import opened Calendar
  import opened Random
  import opened Luhn
  import opened Sexes
  import opened SvPersonalNumber

  const VAT_LENGTH: nat := 14
  /** The youngest sole trader, in years (named the upper limit in the source). */
  const SOLE_TRADER_UPPER_AGE_LIMIT: int := 16
  /** The oldest sole trader, in years (named the lower limit in the source). */
  const SOLE_TRADER_LOWER_AGE_LIMIT: int := 100
  const SE: string := "SE"
  const SUFFIX: string := "01"

  /** GroupNumber: the kind of organisation, which fixes the first digit. */
  datatype GroupNumber =
    | Estate | StateOrCountyOrMunicipalityOrParish | ForeignCompany | LimitedCompany
    | Partnership | EconomicAssociation | NonProfitAssociationOrFoundation
    | TradingCompanyOrLimitedCompanyOrPartnership

  /** All group numbers, in declaration order. */
  const GROUP_NUMBERS: seq<GroupNumber> :=
    [Estate, StateOrCountyOrMunicipalityOrParish, ForeignCompany, LimitedCompany,
     Partnership, EconomicAssociation, NonProfitAssociationOrFoundation,
     TradingCompanyOrLimitedCompanyOrPartnership]

  /** getValue: the digit the group stands for; 4 is never used. */
  function GroupValue(g: GroupNumber): (v: nat)
    ensures 1 <= v <= 9 && v != 4
  {
    match g
    case Estate => 1
    case StateOrCountyOrMunicipalityOrParish => 2
    case ForeignCompany => 3
    case LimitedCompany => 5
    case Partnership => 6
    case EconomicAssociation => 7
    case NonProfitAssociationOrFoundation => 8
    case TradingCompanyOrLimitedCompanyOrPartnership => 9
  }

  /** isValid: false for a length other than fourteen; otherwise the digit
      at length-3 is parsed (a non-digit fails) and compared with the
      checksum of the characters between the country code and the suffix. */
  function IsValid(v: string): Result<bool> {
    if |v| != VAT_LENGTH then Success(false)
    else if !IsDigit(v[|v| - 3]) then Failure(NumberFormat)
    else
      var c :- Checksum(v[2..|v| - 2]);
      Success(DigitValue(v[|v| - 3]) == c)
  }

  /** A VAT number as both paths build it. */
  predicate WellFormed(v: string) {
    |v| == VAT_LENGTH && v[..2] == SE && v[12..] == SUFFIX
    && AllDigits(v[2..12]) && LuhnValid(v[2..12])
  }

  /** Any ten digits passing the Luhn check, framed by "SE" and "01", make a
      valid VAT number. */
  lemma FramedIsValid(digits: string)
    requires |digits| == 10 && AllDigits(digits) && LuhnValid(digits)
    ensures WellFormed(SE + digits + SUFFIX)
    ensures IsValid(SE + digits + SUFFIX) == Success(true)
  {
    var v := SE + digits + SUFFIX;
    assert v[..2] == SE && v[2..12] == digits && v[12..] == SUFFIX;
    assert v[11] == digits[9];
    DigitsChecksum(digits);
  }

  /** For fourteen characters framed as a VAT number, isValid is the Luhn
      check of the ten digits inside. */
  lemma IsValidIffLuhn(v: string)
    requires |v| == VAT_LENGTH && AllDigits(v[2..12])
    ensures IsValid(v).Success?
    ensures IsValid(v) == Success(true) <==> LuhnValid(v[2..12])
  {
    assert v[11] == v[2..12][9];
    DigitsChecksum(v[2..12]);
  }

  /** The organisation number before its check digit: group digit, one
      digit, a number in 20..99 padded to two digits, five digits. */
  function OrganisationBody(group: GroupNumber, digit: string, between: int, five: string): (b: string)
    requires |digit| == 1 && AllDigits(digit) && |five| == 5 && AllDigits(five)
    requires 20 <= between <= 99
    ensures |b| == 9 && AllDigits(b)
    ensures DigitValue(b[0]) == GroupValue(group) && b[1] == digit[0]
    ensures ParseDigits(b[2..4]) == between && b[4..] == five
  {
    var b := NatToString(GroupValue(group)) + digit + TwoDigits(between) + five;
    assert NatToString(GroupValue(group)) == [DigitChar(GroupValue(group))];
    assert b[2..4] == TwoDigits(between) && b[4..] == five;
    assert AllDigits(b) by {
      forall i | 0 <= i < 9 ensures IsDigit(b[i]) {
        if 2 <= i < 4 { assert b[i] == TwoDigits(between)[i - 2]; }
        else if 4 <= i { assert b[i] == five[i - 4]; }
      }
    }
    b
  }

  /** The company path: a group drawn from the enum, the number between 20
      and 99 drawn from the shared source, the other digits from the unseeded
      randomNumeric (given here as `digit` and `five`), then the checksum. */
  method CompanyNumber(rng: RandomSource, digit: string, five: string) returns (v: string)
    requires |digit| == 1 && AllDigits(digit) && |five| == 5 && AllDigits(five)
    modifies rng
    ensures WellFormed(v) && IsValid(v) == Success(true)
    ensures var g := DigitValue(v[2]); 1 <= g <= 9 && g != 4
    ensures AllDigits(v[4..6]) && 20 <= ParseDigits(v[4..6]) <= 99
  {
    var group := rng.RandomElement(GROUP_NUMBERS);
    var between := rng.RandomBetween(20, 99);
    var body := OrganisationBody(group.value, digit, between, five);
    ChecksumIsCheckDigit(body);
    var check := CalculateChecksum(body);
    var organisation := body + IntToString(check.value);
    assert IntToString(check.value) == [DigitChar(CheckDigit(body))];
    CheckDigitCompletes(body);
    assert AllDigits(organisation) by {
      forall i | 0 <= i < 10 ensures IsDigit(organisation[i]) {
        if i < 9 { assert organisation[i] == body[i]; }
      }
    }
    FramedIsValid(organisation);
    v := SE + organisation + SUFFIX;
    assert v[2] == body[0] && v[4..6] == body[2..4];
  }

  /** The sole-trader path: a birth date between a hundred and sixteen years
      before today, a personnummer for it, its hyphen removed. */
  method SoleTraderNumber(rng: RandomSource, now: DateTime) returns (v: string, dateOfBirth: Date)
    requires ValidDateTime(now)
    modifies rng
    ensures WellFormed(v) && IsValid(v) == Success(true)
    ensures NotAfter(PlusYears(now.date, -SOLE_TRADER_LOWER_AGE_LIMIT), dateOfBirth)
    ensures NotAfter(dateOfBirth, PlusYears(now.date, -SOLE_TRADER_UPPER_AGE_LIMIT))
    ensures exists pnr, sex :: Encodes(pnr, dateOfBirth, sex) && v == SE + RemoveChar(pnr, '-') + SUFFIX
  {
    var lowerAgeLimit := PlusYears(now.date, -SOLE_TRADER_LOWER_AGE_LIMIT);
    var upperAgeLimit := PlusYears(now.date, -SOLE_TRADER_UPPER_AGE_LIMIT);
    EpochDayMonotone(lowerAgeLimit, upperAgeLimit);
    var drawn := DateProducer.RandomDateBetweenDates(rng, lowerAgeLimit, upperAgeLimit);
    dateOfBirth := drawn.value;
    var provider := new SvPersonalNumberProvider(rng);
    provider.SetIssueDate(dateOfBirth);
    var pnr := provider.Get(now);
    var digits := RemoveChar(pnr, '-');
    LayoutDigits(pnr);
    FramedIsValid(digits);
    v := SE + digits + SUFFIX;
  }

  /** The ten digits left when the hyphen of a personnummer is removed. */
  lemma LayoutDigits(pnr: string)
    requires HyphenLayout(pnr)
    ensures RemoveChar(pnr, '-') == pnr[..6] + pnr[7..]
    ensures |RemoveChar(pnr, '-')| == 10 && AllDigits(RemoveChar(pnr, '-'))
  {
    var a, b := pnr[..6], pnr[7..];
    assert pnr == a + "-" + b;
    NoHyphenInDigits(a);
    NoHyphenInDigits(b);
    DropHyphen(a, b);
    var t := a + b;
    assert AllDigits(t) by {
      forall i | 0 <= i < |t| ensures IsDigit(t[i]) {
        if i < 6 { assert t[i] == a[i]; } else { assert t[i] == b[i - 6]; }
      }
    }
  }

  /** get: one boolean draw chooses the sole-trader path; either way the
      number is well formed and valid. */
  method Get(rng: RandomSource, now: DateTime, digit: string, five: string) returns (v: string)
    requires ValidDateTime(now)
    requires |digit| == 1 && AllDigits(digit) && |five| == 5 && AllDigits(five)
    modifies rng
    ensures WellFormed(v) && IsValid(v) == Success(true)
  {
    var isSoleTrader := rng.TrueOrFalse();
    if isSoleTrader {
      var dateOfBirth;
      v, dateOfBirth := SoleTraderNumber(rng, now);
    } else {
      v := CompanyNumber(rng, digit, five);
    }
  }
}
