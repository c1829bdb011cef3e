/** Credit-card generation (CreditCardProvider) and the card value
    (CreditCard): a catalog prefix padded to fifteen characters, numerified,
    and completed with a Luhn check digit. */
module CreditCards {
  import opened Wrappers
  import opened Chars
  import opened Calendar
  import opened Random
  import opened Catalog
  import opened DateProducer
  import opened Luhn

  const DEFAULT_VALIDITY: Period := Period(0, 36)
  const DATA_KEY: string := "creditCardPrefixes"
  const CARD_VENDOR: string := "Visa"
  /** The length the prefix is padded to before the check digit. */
  const BODY_LENGTH: nat := 15

  /** The card value object. */
  datatype CreditCard = CreditCard(vendor: string, cardNumber: string, cvv: string, expiryDate: DateTime)

  /** getExpiryDateAsString: "%02d/" of the month, then the "uu" year. */
  function ExpiryDateAsString(card: CreditCard): (s: string)
    requires ValidDateTime(card.expiryDate)
    ensures |s| == 5 && s[2] == '/'
    ensures AllDigits(s[..2]) && AllDigits(s[3..])
    ensures ParseDigits(s[..2]) == card.expiryDate.date.month
    ensures ParseDigits(s[3..]) == YearOfCentury(card.expiryDate.date.year)
  {
    var month := TwoDigits(card.expiryDate.date.month);
    var year := TwoDigitYear(card.expiryDate.date.year);
    SlashJoin(month, year);
    month + "/" + year
  }

  /** The two halves of "a/b" are a and b. */
  lemma SlashJoin(a: string, b: string)
    ensures (a + "/" + b)[..|a|] == a && (a + "/" + b)[|a| + 1..] == b
    ensures (a + "/" + b)[|a|] == '/'
  {
  }

  // ---------------------------------------------------------------------
  // completeNumber as written: a left-to-right sum over getNumericValue
  // ---------------------------------------------------------------------

  /** The loop's contribution of the character at index `i`: values at even
      indices are doubled, and a doubled value above 9 becomes (n % 10) + 1. */
  function Term(c: char, i: nat): int {
    var n := NumericValue(c);
    if i % 2 == 0 then (if 2 * n > 9 then JavaRem(2 * n, 10) + 1 else 2 * n) else n
  }

  /** The value of `sum` after the loop has visited all of `s`. */
  function BodySum(s: string): int {
    if s == [] then 0 else BodySum(s[..|s| - 1]) + Term(s[|s| - 1], |s| - 1)
  }

  /** completeNumber: the number followed by the decimal form of sum*9 % 10,
      Java's remainder. */
  method CompleteNumber(number: string) returns (r: string)
    ensures r == number + IntToString(JavaRem(BodySum(number) * 9, 10))
  {
    var sum := 0;
    var i := 0;
    while i < |number|
      invariant 0 <= i <= |number|
      invariant sum == BodySum(number[..i])
    {
      assert number[..i + 1][..i] == number[..i];
      var n := NumericValue(number[i]);
      if i % 2 == 0 {
        n := n * 2;
        if n > 9 {
          n := JavaRem(n, 10) + 1;
        }
      }
      sum := sum + n;
      i := i + 1;
    }
    assert number[..i] == number;
    r := number + IntToString(JavaRem(sum * 9, 10));
  }

  /** On digits, the loop's sum is the Luhn sum in which the last character
      is doubled exactly when the length is odd. */
  lemma {:induction false} BodySumIsLuhnSum(s: string)
    requires AllDigits(s)
    ensures BodySum(s) == LuhnSum(s, |s| % 2 == 1)
    decreases |s|
  {
    if s != [] {
      var init := s[..|s| - 1];
      var last := s[|s| - 1];
      var odd := |s| % 2 == 1;
      DigitsPrefix(s, |init|);
      BodySumIsLuhnSum(init);
      TermIsLuhnTerm(last, |init|);
      assert (|init| % 2 == 1) == !odd && (|init| % 2 == 0) == odd;
      calc {
        BodySum(s);
        BodySum(init) + Term(last, |init|);
        LuhnSum(init, !odd) + LuhnTerm(last, odd);
        LuhnSum(s, odd);
      }
    }
  }

  /** Every prefix of a string of digits is one. */
  lemma DigitsPrefix(s: string, n: nat)
    requires AllDigits(s) && n <= |s|
    ensures AllDigits(s[..n])
  {
    forall i | 0 <= i < n ensures IsDigit(s[..n][i]) {
      assert s[..n][i] == s[i];
    }
  }

  /** On a digit, the loop's term at index `i` is the Luhn term, doubled
      exactly at even indices. */
  lemma TermIsLuhnTerm(c: char, i: nat)
    requires IsDigit(c)
    ensures Term(c, i) == LuhnTerm(c, i % 2 == 0)
  {
    var n := DigitValue(c);
    assert NumericValue(c) == n;
    if i % 2 == 0 && 2 * n > 9 {
      assert JavaRem(2 * n, 10) == 2 * n - 10;
      assert (2 * n) / 10 == 1 && (2 * n) % 10 == 2 * n - 10;
    }
  }

  /** The check digit: sum*9 mod 10 is the complement of the sum to the next
      multiple of ten. */
  lemma CheckDigitComplement(sum: nat)
    ensures JavaRem(sum * 9, 10) == (10 - sum % 10) % 10
    ensures 0 <= JavaRem(sum * 9, 10) <= 9
    ensures (sum + JavaRem(sum * 9, 10)) % 10 == 0
  {
    assert sum * 9 == sum * 10 - sum;
  }

  /** completeNumber appends exactly one digit to a string of digits, and the
      result passes the Luhn check whenever the string has odd length. */
  lemma CompleteNumberLuhn(body: string)
    requires AllDigits(body)
    ensures var r := body + IntToString(JavaRem(BodySum(body) * 9, 10));
            |r| == |body| + 1 && AllDigits(r) && r[..|body|] == body
    ensures |body| % 2 == 1 ==> LuhnValid(body + IntToString(JavaRem(BodySum(body) * 9, 10)))
  {
    BodySumIsLuhnSum(body);
    var sum := BodySum(body);
    CheckDigitComplement(sum);
    var check := JavaRem(sum * 9, 10);
    SingleDigitString(check);
    AppendDigit(body, check);
    assert (body + [DigitChar(check)])[..|body|] == body;
  }

  /** A single digit prints as its one character. */
  lemma SingleDigitString(d: int)
    requires 0 <= d <= 9
    ensures IntToString(d) == [DigitChar(d)]
  {
  }

  // ---------------------------------------------------------------------
  // generateNumber and get
  // ---------------------------------------------------------------------

  /** The padding loop: the prefix followed by '#' up to fifteen characters;
      a longer prefix is left as it is. */
  method PadPrefix(prefix: string) returns (mask: string)
    ensures |mask| == if |prefix| < BODY_LENGTH then BODY_LENGTH else |prefix|
    ensures mask[..|prefix|] == prefix
    ensures forall i :: |prefix| <= i < |mask| ==> mask[i] == '#'
  {
    mask := prefix;
    var i := |prefix|;
    while i < BODY_LENGTH
      invariant |mask| == if i < |prefix| then |prefix| else i
      invariant i >= |prefix|
      invariant i <= BODY_LENGTH || i == |prefix|
      invariant mask[..|prefix|] == prefix
      invariant forall j :: |prefix| <= j < |mask| ==> mask[j] == '#'
    {
      mask := mask + "#";
      i := i + 1;
    }
  }

  /** String.valueOf of the Integer the catalog holds: a number's decimal
      form, "null" for a null entry; any other value fails the cast. */
  function PrefixText(y: Yaml): (r: Result<string>)
    ensures r.Success? <==> y.YInt? || y.YNull?
    ensures y.YInt? ==> r == Success(IntToString(y.i))
    ensures y.YNull? ==> r == Success("null")
  {
    match y
    case YInt(i) => Success(IntToString(i))
    case YNull => Success("null")
    case _ => Failure(ClassCast)
  }

  /** A prefix that is a non-negative number of at most fifteen digits. */
  predicate ShortPrefix(y: Yaml) {
    y.YInt? && 0 <= y.i < Pow10(BODY_LENGTH)
  }

  /** Numerifying a mask that is a digit prefix followed by '#' gives digits
      that start with the prefix. */
  lemma NumerifiedPrefix(text: string, mask: string, body: string)
    requires AllDigits(text) && |text| <= |mask|
    requires mask[..|text|] == text
    requires forall i :: |text| <= i < |mask| ==> mask[i] == '#'
    requires Numerified(mask, body)
    ensures AllDigits(body) && |body| == |mask| && body[..|text|] == text
  {
    forall i | 0 <= i < |body| ensures IsDigit(body[i]) {
      if i < |text| {
        assert mask[i] == text[i];
      }
    }
    forall i | 0 <= i < |text| ensures body[i] == text[i] {
      assert mask[i] == text[i];
    }
  }

  /** The number built from a prefix of at most fifteen digits has sixteen
      digits, starts with the prefix and passes the Luhn check. */
  lemma ShortPrefixNumber(text: string, mask: string, body: string)
    requires AllDigits(text) && |text| <= BODY_LENGTH
    requires |mask| == BODY_LENGTH
    requires mask[..|text|] == text
    requires forall i :: |text| <= i < |mask| ==> mask[i] == '#'
    requires Numerified(mask, body)
    ensures var r := body + IntToString(JavaRem(BodySum(body) * 9, 10));
            |r| == BODY_LENGTH + 1 && LuhnValid(r) && r[..|text|] == text
  {
    NumerifiedPrefix(text, mask, body);
    CompleteNumberLuhn(body);
    var r := body + IntToString(JavaRem(BodySum(body) * 9, 10));
    assert r[..|text|] == body[..|text|];
  }

  /** A card number completed from one catalog prefix: a number prefix
      gives its digits padded and numerified, then the check digit. */
  method NumberFromPrefix(rng: RandomSource, prefix: Yaml) returns (r: Result<string>)
    modifies rng
    ensures r.Success? <==> prefix.YInt? || prefix.YNull?
    ensures ShortPrefix(prefix) ==>
              r.Success? && |r.value| == BODY_LENGTH + 1 && LuhnValid(r.value)
              && |NatToString(prefix.i)| <= |r.value|
              && r.value[..|NatToString(prefix.i)|] == NatToString(prefix.i)
  {
    var text :- PrefixText(prefix);
    var mask := PadPrefix(text);
    var body := rng.Numerify(mask);
    if ShortPrefix(prefix) {
      NatToStringLength(prefix.i, BODY_LENGTH);
      ShortPrefixNumber(text, mask, body);
    }
    var number := CompleteNumber(body);
    r := Success(number);
  }

  /** A catalog whose Visa prefixes are all short numbers. */
  predicate ShortPrefixes(prefixes: Result<seq<Yaml>>) {
    prefixes.Success? && prefixes.value != [] && forall y :: y in prefixes.value ==> ShortPrefix(y)
  }

  /** generateNumber: a random Visa prefix from the catalog, completed. With
      short numeric prefixes the number has sixteen digits, passes the Luhn
      check and starts with one of the prefixes. */
  method GenerateNumber(dataMaster: DataMaster, rng: RandomSource) returns (r: Result<string>)
    modifies dataMaster.rng, rng
    ensures ShortPrefixes(TypedList(dataMaster.dataSource, DATA_KEY, CARD_VENDOR)) ==>
              r.Success? && |r.value| == BODY_LENGTH + 1 && LuhnValid(r.value)
              && exists y :: y in TypedList(dataMaster.dataSource, DATA_KEY, CARD_VENDOR).value
                             && |NatToString(y.i)| <= |r.value|
                             && r.value[..|NatToString(y.i)|] == NatToString(y.i)
    ensures TypedList(dataMaster.dataSource, DATA_KEY, CARD_VENDOR).Failure? ==> r.Failure?
  {
    var prefix :- dataMaster.GetValuesOfType(DATA_KEY, CARD_VENDOR);
    r := NumberFromPrefix(rng, prefix);
  }

  /** get: the number, then an expiry date within 36 months of now, then a
      three-digit CVV, under the vendor "Visa". */
  method Get(dataMaster: DataMaster, rng: RandomSource, now: DateTime) returns (r: Result<CreditCard>)
    requires ValidDateTime(now)
    modifies dataMaster.rng, rng
    ensures r.Success? ==>
              r.value.vendor == CARD_VENDOR
              && |r.value.cvv| == 3 && AllDigits(r.value.cvv)
              && ValidDateTime(r.value.expiryDate)
              && EpochMilli(now) <= EpochMilli(r.value.expiryDate)
              && EpochMilli(r.value.expiryDate) <= EpochMilli(PlusPeriod(now, DEFAULT_VALIDITY))
    ensures ShortPrefixes(TypedList(dataMaster.dataSource, DATA_KEY, CARD_VENDOR)) ==>
              r.Success? && |r.value.cardNumber| == BODY_LENGTH + 1 && LuhnValid(r.value.cardNumber)
  {
    var number :- GenerateNumber(dataMaster, rng);
    ValidityWindowNonEmpty(now);
    var expiry := RandomDateBetweenNowAndFuturePeriod(rng, now, DEFAULT_VALIDITY);
    var cvv := rng.Numerify("###");
    assert AllDigits(cvv) by {
      forall i | 0 <= i < |cvv| ensures IsDigit(cvv[i]) {
        assert "###"[i] == '#';
      }
    }
    r := Success(CreditCard(CARD_VENDOR, number, cvv, expiry.value));
  }

  /** The 36-month validity window is never empty. */
  lemma ValidityWindowNonEmpty(now: DateTime)
    requires ValidDateTime(now)
    ensures EpochMilli(now) <= EpochMilli(PlusPeriod(now, DEFAULT_VALIDITY))
  {
    var later := PlusPeriod(now, DEFAULT_VALIDITY);
    assert Before(now.date, later.date);
    EpochMilliMonotone(now, later);
  }
}
