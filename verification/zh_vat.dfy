/** The Chinese VAT identification number (ZhVATIdentificationNumberProvider):
    province, city and district codes followed by nine organisation-code
    characters, fifteen characters in all. The provider draws from its own
    generator, not the shared seeded one. */
module ZhVat {
  import opened Wrappers
  import opened Chars
  import opened Random
  import opened ZhUtil

  const ORGANIZATION_CODE_LENGTH: nat := 9
  const VAT_LENGTH: nat := 15

  /** The character getChar writes for a draw in [0, 35], as written:
      character codes 49 to 58 ('1' to ':') for 0 to 9, then 'A' to 'Z'. */
  function VatChar(v: int): (c: char)
    requires 0 <= v <= 35
  {
    if v < 10 then (49 + v) as char else (65 + v - 10) as char
  }

  /** A character of the organisation-code alphabet 0-9A-Z. */
  predicate IsOrgCodeChar(c: char) {
    IsDigit(c) || IsUpper(c)
  }

  /** As written, a draw of 9 gives ':', which is outside 0-9A-Z, and no
      draw gives '0'. */
  lemma VatCharLeavesAlphabet(v: int)
    requires 0 <= v <= 35
    ensures VatChar(9) == ':' && !IsOrgCodeChar(VatChar(9))
    ensures VatChar(v) != '0'
    ensures IsOrgCodeChar(VatChar(v)) <==> v != 9
  {
  }

  /** The alphabet getChar actually draws from: '1' to '9', ':' and 'A'
      to 'Z'. */
  predicate IsVatChar(c: char) {
    ('1' <= c <= ':') || IsUpper(c)
  }

  /** Every draw gives a different character, every one of them in the
      alphabet above, and every character of that alphabet is the one some
      draw gives. */
  lemma VatCharBijective(v: int, w: int, c: char)
    requires 0 <= v <= 35 && 0 <= w <= 35
    ensures IsVatChar(VatChar(v))
    ensures VatChar(v) == VatChar(w) ==> v == w
    ensures IsVatChar(c) ==> exists u :: 0 <= u <= 35 && VatChar(u) == c
  {
    if IsVatChar(c) {
      var u := if c <= ':' then c as int - 49 else c as int - 65 + 10;
      assert VatChar(u) == c;
    }
  }

  /** getChar: one draw in [0, 35] and its character, as written. */
  method GetChar(own: RandomSource) returns (c: char, ghost v: int)
    modifies own
    ensures 0 <= v <= 35 && c == VatChar(v)
  {
    var rndNum := own.RandomBetween(0, 35);
    v := rndNum;
    if rndNum < 10 {
      return (49 + rndNum) as char, v;
    }
    return (65 + rndNum - 10) as char, v;
  }

  /** getChars(n): n characters from successive getChar draws. */
  method GetChars(own: RandomSource, paddingSize: int) returns (s: string)
    modifies own
    ensures |s| == if paddingSize > 0 then paddingSize else 0
    ensures forall i :: 0 <= i < |s| ==> IsVatChar(s[i])
  {
    s := "";
    var i := 0;
    while i < paddingSize
      invariant |s| == if i > 0 then i else 0
      invariant i <= paddingSize || i == 0
      invariant forall k :: 0 <= k < |s| ==> IsVatChar(s[k])
    {
      var c, v := GetChar(own);
      VatCharBijective(v, v, c);
      s := s + [c];
      i := i + 1;
    }
  }

  /** The shape of a generated number. */
  predicate VatLayout(s: string) {
    |s| == VAT_LENGTH
    && s[..2] in PROV_LIST
    && AllDigits(s[2..4]) && AllDigits(s[4..6])
    && 1 <= ParseDigits(s[2..4]) <= CITY_MAX
    && 1 <= ParseDigits(s[4..6]) <= DISTRICT_MAX
    && forall i :: 6 <= i < VAT_LENGTH ==> IsVatChar(s[i])
  }

  /** get: the parts appended in order to one builder. */
  method Get(own: RandomSource) returns (r: string)
    modifies own
    ensures VatLayout(r)
  {
    ProvinceCodes();
    var province := own.RandomElement(PROV_LIST);
    var city, c := GetRandomNumStr(own, CITY_MAX, 2);
    var district, d := GetRandomNumStr(own, DISTRICT_MAX, 2);
    var code := GetChars(own, ORGANIZATION_CODE_LENGTH);
    var vatBuilder := "";
    vatBuilder := vatBuilder + province.value;
    vatBuilder := vatBuilder + city.value;
    vatBuilder := vatBuilder + district.value;
    vatBuilder := vatBuilder + code;
    r := vatBuilder;
    Fields(r, province.value, c, d, code);
  }

  lemma Fields(r: string, province: string, c: nat, d: nat, code: string)
    requires province in PROV_LIST
    requires 1 <= c <= CITY_MAX && 1 <= d <= DISTRICT_MAX
    requires |code| == ORGANIZATION_CODE_LENGTH && forall i :: 0 <= i < |code| ==> IsVatChar(code[i])
    requires r == province + LeftPad(NatToString(c), 2, '0') + LeftPad(NatToString(d), 2, '0') + code
    ensures VatLayout(r)
  {
    ProvinceCodes();
    var cs, ds := LeftPad(NatToString(c), 2, '0'), LeftPad(NatToString(d), 2, '0');
    PaddedNumber(c, 2);
    PaddedNumber(d, 2);
    TwoDigitCodes(c);
    TwoDigitCodes(d);
    assert r[..2] == province && r[2..4] == cs && r[4..6] == ds && r[6..] == code;
    forall i | 6 <= i < VAT_LENGTH ensures IsVatChar(r[i]) {
      assert r[i] == code[i - 6];
    }
  }
}
