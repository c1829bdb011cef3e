/** The Chinese national identity card number (ZhNationalIdentityCardNumberProvider):
    province, city and district codes, the birth date and a four-digit order
    number, eighteen characters in all. No check character is computed. */
module ZhId {
  import opened Wrappers
  import opened Chars
  import opened Calendar
  import opened Random
  import opened DateProducer
  import opened ZhUtil

  /** The order number runs from 0001 to 9999. */
  const ORDER_MAX: int := 9999
  /** Birth dates are drawn within this many years before now. */
  const BIRTH_YEARS: int := 50
  const ID_LENGTH: nat := 18

  /** DateTimeFormatter "yyyyMMdd" for the years 1 to 9999. */
  function BasicDate(d: Date): (s: string)
    requires 1 <= d.year <= 9999 && 1 <= d.month <= 12 && 1 <= d.day <= 31
    ensures |s| == 8 && AllDigits(s)
  {
    Pow10Values();
    ZeroPadWidth(d.year, 4);
    ZeroPad(d.year, 4) + TwoDigits(d.month) + TwoDigits(d.day)
  }

  /** The fields of an identity number: a province code, a city code in
      [1, 30], a district code in [1, 12], the birth date and an order
      number in [1, 9999], all as digits. */
  predicate IdLayout(s: string, birth: Date)
    requires 1 <= birth.year <= 9999 && 1 <= birth.month <= 12 && 1 <= birth.day <= 31
  {
    |s| == ID_LENGTH && AllDigits(s)
    && s[..2] in PROV_LIST
    && 1 <= ParseDigits(s[2..4]) <= CITY_MAX
    && 1 <= ParseDigits(s[4..6]) <= DISTRICT_MAX
    && s[6..14] == BasicDate(birth)
    && 1 <= ParseDigits(s[14..]) <= ORDER_MAX
  }

  /** get: the parts appended in order to one builder. The clock is taken
      within the years the four-digit year pattern covers. */
  method Get(rng: RandomSource, now: DateTime) returns (r: string, ghost birth: Date)
    requires ValidDateTime(now) && BIRTH_YEARS < now.date.year <= 9999
    modifies rng
    ensures ValidDate(birth) && 1 <= birth.year <= 9999
    ensures NotAfter(PastWindowStart(now, BIRTH_YEARS).date, birth) && NotAfter(birth, now.date)
    ensures IdLayout(r, birth)
  {
    ProvinceCodes();
    var province := rng.RandomElement(PROV_LIST);
    var city, c := GetRandomNumStr(rng, CITY_MAX, 2);
    var district, d := GetRandomNumStr(rng, DISTRICT_MAX, 2);
    var t := RandomDateInThePast(rng, now, BIRTH_YEARS);
    DateNotAfter(PastWindowStart(now, BIRTH_YEARS), t.value);
    DateNotAfter(t.value, now);
    var birthDay := t.value.date;
    birth := birthDay;
    var birthDate := BasicDate(birthDay);
    var order, o := GetRandomNumStr(rng, ORDER_MAX, 4);
    var idBuilder := "";
    idBuilder := idBuilder + province.value;
    idBuilder := idBuilder + city.value;
    idBuilder := idBuilder + district.value;
    idBuilder := idBuilder + birthDate;
    idBuilder := idBuilder + order.value;
    r := idBuilder;
    Fields(r, province.value, c, d, birth, o);
  }

  /** The concatenated parts sit at their fixed positions and read back as
      the numbers drawn. */
  lemma Fields(r: string, province: string, c: nat, d: nat, birth: Date, o: nat)
    requires province in PROV_LIST
    requires 1 <= c <= CITY_MAX && 1 <= d <= DISTRICT_MAX && 1 <= o <= ORDER_MAX
    requires 1 <= birth.year <= 9999 && 1 <= birth.month <= 12 && 1 <= birth.day <= 31
    requires r == province + LeftPad(NatToString(c), 2, '0') + LeftPad(NatToString(d), 2, '0')
                  + BasicDate(birth) + LeftPad(NatToString(o), 4, '0')
    ensures IdLayout(r, birth)
  {
    ProvinceCodes();
    var cs, ds, os := LeftPad(NatToString(c), 2, '0'), LeftPad(NatToString(d), 2, '0'),
                      LeftPad(NatToString(o), 4, '0');
    PaddedNumber(c, 2);
    PaddedNumber(d, 2);
    PaddedNumber(o, 4);
    TwoDigitCodes(c);
    TwoDigitCodes(d);
    Pow10Values();
    NatToStringLength(o, 4);
    Concat5(province, cs, ds, BasicDate(birth), os);
  }

  lemma Concat5(a: string, b: string, c: string, d: string, e: string)
    requires |a| == 2 && |b| == 2 && |c| == 2 && |d| == 8 && |e| == 4
    requires AllDigits(a) && AllDigits(b) && AllDigits(c) && AllDigits(d) && AllDigits(e)
    ensures var s := a + b + c + d + e;
            |s| == ID_LENGTH && AllDigits(s)
            && s[..2] == a && s[2..4] == b && s[4..6] == c && s[6..14] == d && s[14..] == e
  {
    var s := a + b + c + d + e;
    forall i | 0 <= i < |s| ensures IsDigit(s[i]) {
      if i < 2 { assert s[i] == a[i]; }
      else if i < 4 { assert s[i] == b[i - 2]; }
      else if i < 6 { assert s[i] == c[i - 4]; }
      else if i < 14 { assert s[i] == d[i - 6]; }
      else { assert s[i] == e[i - 14]; }
    }
  }
}
