/** The German builders: identity card and passport numbers (a type letter
    and eight digits) and VAT identification numbers (nine digits), each with
    its regular-expression validator. */
module DeIds {
  import opened Chars
  import opened Random
  import opened Regex

  const ID_CARD_TYPE_LETTERS: seq<string> := ["L", "M", "N", "P", "R", "T", "V", "W", "X", "Y"]
  const PASSPORT_TYPE_LETTERS: seq<string> := ["C", "F", "G", "H", "J", "K"]
  const DIGITS_LENGTH: nat := 8
  const VAT_LENGTH: nat := 9

  /** ^[LMNPRTVWXY][0-9]{8}$ */
  const ID_CARD_PATTERN: Pattern := [Exactly(OneOf("LMNPRTVWXY"), 1), Exactly(DIGIT, DIGITS_LENGTH)]
  /** ^[CFGHJK][0-9]{8}$ */
  const PASSPORT_PATTERN: Pattern := [Exactly(OneOf("CFGHJK"), 1), Exactly(DIGIT, DIGITS_LENGTH)]
  /** ^[0-9]{9}$ */
  const VAT_PATTERN: Pattern := [Exactly(DIGIT, VAT_LENGTH)]

  /** DeNationalIdentityCardNumberProvider.isValid */
  predicate IsValidIdCard(s: string) { Matches(ID_CARD_PATTERN, s) }

  /** DePassportNumberProvider.isValid */
  predicate IsValidPassport(s: string) { Matches(PASSPORT_PATTERN, s) }

  /** DeVATIdentificationNumberProvider.isValid */
  predicate IsValidVat(s: string) { Matches(VAT_PATTERN, s) }

  /** A letter of `letters` followed by eight digits and nothing else. */
  predicate TypedNumber(letters: string, s: string) {
    |s| == 1 + DIGITS_LENGTH && s[0] in letters && AllDigits(s[1..])
  }

  lemma DigitsInClass(s: string)
    ensures AllIn(s, DIGIT) <==> AllDigits(s)
  {
    assert forall i :: 0 <= i < |s| ==> (InClass(s[i], DIGIT) <==> IsDigit(s[i]));
  }

  /** [letters][0-9]{8} matches exactly a type letter and eight digits. */
  lemma TypedPatternIff(letters: string, s: string)
    ensures Matches([Exactly(OneOf(letters), 1), Exactly(DIGIT, DIGITS_LENGTH)], s) <==> TypedNumber(letters, s)
  {
    var digits := [Exactly(DIGIT, DIGITS_LENGTH)];
    assert [Exactly(OneOf(letters), 1), Exactly(DIGIT, DIGITS_LENGTH)] == [Exactly(OneOf(letters), 1)] + digits;
    MatchesExactly(OneOf(letters), 1, digits, s);
    if 1 <= |s| {
      assert digits == digits + [];
      MatchesExactly(DIGIT, DIGITS_LENGTH, [], s[1..]);
      DigitsInClass(s[1..]);
      assert AllIn(s[..1], OneOf(letters)) <==> s[0] in letters;
    }
  }

  /** The identity-card validator accepts exactly a letter of
      L M N P R T V W X Y followed by eight digits. */
  lemma IdCardValidIff(s: string)
    ensures IsValidIdCard(s) <==> TypedNumber("LMNPRTVWXY", s)
  {
    TypedPatternIff("LMNPRTVWXY", s);
  }

  /** The passport validator accepts exactly a letter of C F G H J K
      followed by eight digits. */
  lemma PassportValidIff(s: string)
    ensures IsValidPassport(s) <==> TypedNumber("CFGHJK", s)
  {
    TypedPatternIff("CFGHJK", s);
  }

  /** The VAT validator accepts exactly nine digits. */
  lemma VatValidIff(s: string)
    ensures IsValidVat(s) <==> |s| == VAT_LENGTH && AllDigits(s)
  {
    assert VAT_PATTERN == [Exactly(DIGIT, VAT_LENGTH)] + [];
    MatchesExactly(DIGIT, VAT_LENGTH, [], s);
    DigitsInClass(s);
    if |s| == VAT_LENGTH {
      assert s[..VAT_LENGTH] == s;
    }
  }

  /** The one-letter string a type-letter list entry is. */
  lemma LetterEntry(list: seq<string>, letters: string, e: string)
    requires |list| == |letters| && forall i :: 0 <= i < |list| ==> list[i] == [letters[i]]
    requires e in list
    ensures |e| == 1 && e[0] in letters
  {
    var i :| 0 <= i < |list| && list[i] == e;
    assert e[0] == letters[i];
  }

  /** get: a random type letter followed by the eight digits `numeric`
      (an unseeded randomNumeric(8)); the validator accepts it. */
  method GetIdCard(rng: RandomSource, numeric: string) returns (r: string)
    requires |numeric| == DIGITS_LENGTH && AllDigits(numeric)
    modifies rng
    ensures TypedNumber("LMNPRTVWXY", r) && r[1..] == numeric
    ensures IsValidIdCard(r)
  {
    var letter := rng.RandomElement(ID_CARD_TYPE_LETTERS);
    LetterEntry(ID_CARD_TYPE_LETTERS, "LMNPRTVWXY", letter.value);
    r := letter.value + numeric;
    IdCardValidIff(r);
  }

  /** get: a random passport type letter followed by the eight digits
      `numeric` (an unseeded randomNumeric(8)); the validator accepts it. */
  method GetPassport(rng: RandomSource, numeric: string) returns (r: string)
    requires |numeric| == DIGITS_LENGTH && AllDigits(numeric)
    modifies rng
    ensures TypedNumber("CFGHJK", r) && r[1..] == numeric
    ensures IsValidPassport(r)
  {
    var letter := rng.RandomElement(PASSPORT_TYPE_LETTERS);
    LetterEntry(PASSPORT_TYPE_LETTERS, "CFGHJK", letter.value);
    r := letter.value + numeric;
    PassportValidIff(r);
  }

  /** get: the nine digits `numeric` (an unseeded randomNumeric(9)) with no
      country prefix; the validator accepts them. */
  method GetVat(numeric: string) returns (r: string)
    requires |numeric| == VAT_LENGTH && AllDigits(numeric)
    ensures r == numeric && IsValidVat(r)
  {
    r := numeric;
    VatValidIff(r);
  }
}
