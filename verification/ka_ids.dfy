/** Georgian identity documents: the identity card in its old and new
    formats (KaNationalIdentityCardNumberProvider) and the passport number
    (KaPassportNumberProvider). */
module KaIds {
  import opened Chars
  import opened Random

  /** The 33 Georgian letters the old card format draws from. */
  const GEORGIAN_CHARS: string := "აბგდევზთიკლმნოპჟრსტუფქღყშჩცძწჭხჯჰ"
  const OLD_CARD_MASK: string := "#######"
  const NEW_CARD_MASK: string := "##??#####"

  /** An old card number: 'N', a Georgian letter and seven digits. */
  predicate OldCardLayout(s: string) {
    |s| == 9 && s[0] == 'N' && s[1] in GEORGIAN_CHARS && AllDigits(s[2..])
  }

  /** A new card number: two digits, two capital letters, five digits. */
  predicate NewCardLayout(s: string) {
    |s| == 9 && AllDigits(s[..2]) && IsUpper(s[2]) && IsUpper(s[3]) && AllDigits(s[4..])
  }

  /** No string has both layouts: the new format starts with a digit. */
  lemma FormatsDisjoint(s: string)
    requires OldCardLayout(s)
    ensures !NewCardLayout(s)
  {
    assert s[..2][0] == s[0] == 'N';
  }

  /** OldCardNumberProvider.get: "N", a random Georgian letter and seven
      random digits. */
  method OldCard(rng: RandomSource) returns (r: string)
    modifies rng
    ensures OldCardLayout(r)
  {
    var index := rng.RandomInt(|GEORGIAN_CHARS| - 1);
    var geChar := GEORGIAN_CHARS[index];
    var digits := rng.Numerify(OLD_CARD_MASK);
    NumerifiedDigits(OLD_CARD_MASK, digits);
    r := "N" + [geChar] + digits;
    assert r[2..] == digits;
  }

  /** NewCardNumberProvider.get: the mask "##??#####" filled and upper-cased. */
  method NewCard(rng: RandomSource) returns (r: string)
    modifies rng
    ensures NewCardLayout(r)
  {
    var filled := rng.Bothify(NEW_CARD_MASK);
    r := Upper(filled);
    NewCardFilled(filled);
  }

  /** Upper-casing a filled new-card mask gives the new-card layout. */
  lemma NewCardFilled(filled: string)
    requires Bothified(NEW_CARD_MASK, filled)
    ensures NewCardLayout(Upper(filled))
  {
    var r := Upper(filled);
    forall i | 0 <= i < |r| ensures if i == 2 || i == 3 then IsUpper(r[i]) else IsDigit(r[i]) {
      assert r[i] == ToUpperChar(filled[i]);
      if i == 2 || i == 3 {
        assert NEW_CARD_MASK[i] == '?';
      } else {
        assert NEW_CARD_MASK[i] == '#';
      }
    }
    assert forall i :: 0 <= i < 2 ==> r[..2][i] == r[i];
    assert forall i :: 0 <= i < 5 ==> r[4..][i] == r[i + 4];
  }

  /** get: one boolean draw picks the old format (true) or the new one. */
  method Get(rng: RandomSource) returns (r: string, ghost old_format: bool)
    modifies rng
    ensures old_format ==> OldCardLayout(r)
    ensures !old_format ==> NewCardLayout(r)
  {
    var pick := rng.TrueOrFalse();
    old_format := pick;
    if pick {
      r := OldCard(rng);
    } else {
      r := NewCard(rng);
    }
  }

  /** A passport number: eleven digits. */
  predicate PassportLayout(s: string) {
    |s| == 11 && AllDigits(s)
  }

  /** getDistrictCode: two random digits. */
  method GetDistrictCode(rng: RandomSource) returns (r: string)
    modifies rng
    ensures |r| == 2 && AllDigits(r)
  {
    r := rng.Numerify("##");
    NumerifiedDigits("##", r);
  }

  /** getStateOfficeCode: three random digits; the district is not used. */
  method GetStateOfficeCode(rng: RandomSource, district: string) returns (r: string)
    modifies rng
    ensures |r| == 3 && AllDigits(r)
  {
    r := rng.Numerify("###");
    NumerifiedDigits("###", r);
  }

  /** getNationalPersonalIdentificationNumber: six random digits. */
  method GetNationalPersonalIdentificationNumber(rng: RandomSource) returns (r: string)
    modifies rng
    ensures |r| == 6 && AllDigits(r)
  {
    r := rng.Numerify("######");
    NumerifiedDigits("######", r);
  }

  /** KaPassportNumberProvider.get: district, office and personal number in
      that order. */
  method GetPassport(rng: RandomSource) returns (r: string, ghost district: string, ghost office: string, ghost personal: string)
    modifies rng
    ensures r == district + office + personal
    ensures |district| == 2 && |office| == 3 && |personal| == 6
    ensures PassportLayout(r)
  {
    var districtCode := GetDistrictCode(rng);
    var officeCode := GetStateOfficeCode(rng, districtCode);
    var personalNumber := GetNationalPersonalIdentificationNumber(rng);
    district, office, personal := districtCode, officeCode, personalNumber;
    r := districtCode + officeCode + personalNumber;
    DigitsConcat(districtCode, officeCode, personalNumber);
  }

  lemma DigitsConcat(a: string, b: string, c: string)
    requires AllDigits(a) && AllDigits(b) && AllDigits(c)
    ensures AllDigits(a + b + c)
  {
    var s := a + b + c;
    forall i | 0 <= i < |s| ensures IsDigit(s[i]) {
      if i < |a| { assert s[i] == a[i]; }
      else if i < |a| + |b| { assert s[i] == b[i - |a|]; }
      else { assert s[i] == c[i - |a| - |b|]; }
    }
  }
}
