/** The US Social Security Number builder (EnNationalIdentityCardNumberProvider):
    an eleven-character array holding area, group and serial numbers
    separated by hyphens. */
module EnSsn {
  import opened Wrappers
  import opened Chars
  import opened Random
  import opened JavaArrays

  const SSN_LENGTH: nat := 11
  const AREA_NUMBER_LENGTH: nat := 3
  const GROUP_NUMBER_LENGTH: nat := 2
  const GROUP_NUMBER_INDEX: nat := 4
  const HYPHEN_INDEXES: seq<nat> := [3, 6]
  const SERIAL_NUMBER_LENGTH: nat := 4
  const SERIAL_NUMBER_INDEX: nat := 7

  const AREA_MIN: int := 1
  const AREA_MAX: int := 899
  /** The area number the retry loop never lets through. */
  const FORBIDDEN_AREA: int := 666

  /** The area number a raw draw stands for: randomBetween(1, 899). */
  function AreaDraw(d: nat): (area: int)
    ensures AREA_MIN <= area <= AREA_MAX
  {
    AREA_MIN + d % (AREA_MAX - AREA_MIN + 1)
  }

  /** The shape every generated number has: digits everywhere except the
      hyphens at 3 and 6. */
  predicate SsnLayout(s: string) {
    |s| == SSN_LENGTH
    && s[3] == '-' && s[6] == '-'
    && AllDigits(s[..3]) && AllDigits(s[4..6]) && AllDigits(s[7..])
  }

  /** Three fields joined by hyphens. */
  function Hyphenated(area: string, group: string, serial: string): string {
    area + "-" + group + "-" + serial
  }

  /** The number as the three drawn fields spell it. */
  function Spelled(area: nat, group: nat, serial: nat): string {
    Hyphenated(ZeroPad(area, AREA_NUMBER_LENGTH), ZeroPad(group, GROUP_NUMBER_LENGTH),
               ZeroPad(serial, SERIAL_NUMBER_LENGTH))
  }

  /** A string is the hyphenated fields exactly when it holds them at their
      positions with hyphens at 3 and 6. */
  lemma HyphenatedIff(r: string, area: string, group: string, serial: string)
    requires |area| == AREA_NUMBER_LENGTH && |group| == GROUP_NUMBER_LENGTH
    requires |serial| == SERIAL_NUMBER_LENGTH
    ensures r == Hyphenated(area, group, serial) <==>
              |r| == SSN_LENGTH && r[..3] == area && r[3] == '-' && r[4..6] == group
              && r[6] == '-' && r[7..] == serial
  {
    if |r| == SSN_LENGTH && r[..3] == area && r[3] == '-' && r[4..6] == group
       && r[6] == '-' && r[7..] == serial {
      assert r == r[..3] + [r[3]] + r[4..6] + [r[6]] + r[7..];
    }
  }

  /** The three fields padded to their widths. */
  lemma FieldWidths(area: nat, group: nat, serial: nat)
    requires area <= AREA_MAX && group <= 99 && serial <= 9999
    ensures |ZeroPad(area, AREA_NUMBER_LENGTH)| == AREA_NUMBER_LENGTH
    ensures |ZeroPad(group, GROUP_NUMBER_LENGTH)| == GROUP_NUMBER_LENGTH
    ensures |ZeroPad(serial, SERIAL_NUMBER_LENGTH)| == SERIAL_NUMBER_LENGTH
  {
    Pow10Values();
    ZeroPadWidth(area, AREA_NUMBER_LENGTH);
    ZeroPadWidth(group, GROUP_NUMBER_LENGTH);
    ZeroPadWidth(serial, SERIAL_NUMBER_LENGTH);
  }

  /** fillHyphens: '-' at every hyphen index, the rest untouched. */
  method FillHyphens(ssn: array<char>)
    requires ssn.Length == SSN_LENGTH
    modifies ssn
    ensures ssn[..] == old(ssn[..])[3 := '-'][6 := '-']
  {
    for k := 0 to |HYPHEN_INDEXES|
      invariant ssn[..] == if k == 0 then old(ssn[..])
                           else if k == 1 then old(ssn[..])[3 := '-']
                           else old(ssn[..])[3 := '-'][6 := '-']
    {
      ssn[HYPHEN_INDEXES[k]] := '-';
    }
  }

  /** fillAreaNumber: draws in [1, 899] until the number is not "666", then
      copies it, padded to three digits, to the front. `until` is a draw
      position at which the loop is sure to stop. */
  method FillAreaNumber(rng: RandomSource, ssn: array<char>, ghost until: nat) returns (ghost area: nat)
    requires ssn.Length == SSN_LENGTH
    requires rng.position <= until && AreaDraw(rng.draws(until)) != FORBIDDEN_AREA
    modifies rng, ssn
    ensures AREA_MIN <= area <= AREA_MAX && area != FORBIDDEN_AREA
    ensures ssn[..] == ZeroPad(area, AREA_NUMBER_LENGTH) + old(ssn[AREA_NUMBER_LENGTH..])
  {
    var number: string;
    var drawn: int;
    while true
      invariant rng.position <= until
      modifies rng
      decreases until - rng.position
    {
      drawn := rng.RandomBetween(AREA_MIN, AREA_MAX);
      number := IntToString(drawn);
      NatToStringInjective(drawn, FORBIDDEN_AREA);
      if number != IntToString(FORBIDDEN_AREA) {
        break;
      }
    }
    area := drawn;
    Pow10Values();
    var digits := LeftPad(number, AREA_NUMBER_LENGTH, '0');
    ZeroPadWidth(area, AREA_NUMBER_LENGTH);
    var o := ArrayCopy(digits, ssn, 0);
    assert old(ssn[..0]) == [];
  }

  /** fillGroupNumber: a draw in [1, 99], padded to two digits, at index 4. */
  method FillGroupNumber(rng: RandomSource, ssn: array<char>) returns (ghost group: nat)
    requires ssn.Length == SSN_LENGTH
    modifies rng, ssn
    ensures 1 <= group <= 99
    ensures ssn[..] == old(ssn[..GROUP_NUMBER_INDEX]) + ZeroPad(group, GROUP_NUMBER_LENGTH)
                       + old(ssn[GROUP_NUMBER_INDEX + GROUP_NUMBER_LENGTH..])
  {
    var drawn := rng.RandomBetween(1, 99);
    group := drawn;
    Pow10Values();
    var digits := LeftPad(IntToString(drawn), GROUP_NUMBER_LENGTH, '0');
    ZeroPadWidth(group, GROUP_NUMBER_LENGTH);
    var o := ArrayCopy(digits, ssn, GROUP_NUMBER_INDEX);
  }

  /** fillSerialNumber: a draw in [1, 9999], padded to four digits, at index 7. */
  method FillSerialNumber(rng: RandomSource, ssn: array<char>) returns (ghost serial: nat)
    requires ssn.Length == SSN_LENGTH
    modifies rng, ssn
    ensures 1 <= serial <= 9999
    ensures ssn[..] == old(ssn[..SERIAL_NUMBER_INDEX]) + ZeroPad(serial, SERIAL_NUMBER_LENGTH)
  {
    var drawn := rng.RandomBetween(1, 9999);
    serial := drawn;
    Pow10Values();
    var digits := LeftPad(IntToString(drawn), SERIAL_NUMBER_LENGTH, '0');
    ZeroPadWidth(serial, SERIAL_NUMBER_LENGTH);
    var o := ArrayCopy(digits, ssn, SERIAL_NUMBER_INDEX);
    assert old(ssn[SERIAL_NUMBER_INDEX + SERIAL_NUMBER_LENGTH..]) == [];
  }

  /** get: hyphens, area, group and serial written into an eleven-character
      array. */
  method Get(rng: RandomSource, ghost until: nat) returns (r: string, ghost area: nat, ghost group: nat, ghost serial: nat)
    requires rng.position <= until && AreaDraw(rng.draws(until)) != FORBIDDEN_AREA
    modifies rng
    ensures AREA_MIN <= area <= AREA_MAX && area != FORBIDDEN_AREA
    ensures 1 <= group <= 99 && 1 <= serial <= 9999
    ensures r == Spelled(area, group, serial)
    ensures SsnLayout(r) && r[..3] != "666"
  {
    var ssn := new char[SSN_LENGTH];
    FillHyphens(ssn);
    area := FillAreaNumber(rng, ssn, until);
    group := FillGroupNumber(rng, ssn);
    serial := FillSerialNumber(rng, ssn);
    r := ssn[..];
    FieldWidths(area, group, serial);
    HyphenatedIff(r, ZeroPad(area, AREA_NUMBER_LENGTH), ZeroPad(group, GROUP_NUMBER_LENGTH),
                  ZeroPad(serial, SERIAL_NUMBER_LENGTH));
    GeneratedLayout(area, group, serial);
  }

  /** The spelled number has the SSN layout and holds each padded field at
      its position. */
  lemma SpelledFields(area: nat, group: nat, serial: nat)
    requires area <= AREA_MAX && group <= 99 && serial <= 9999
    ensures var s := Spelled(area, group, serial);
            SsnLayout(s) && s[..3] == ZeroPad(area, AREA_NUMBER_LENGTH)
            && s[4..6] == ZeroPad(group, GROUP_NUMBER_LENGTH)
            && s[7..] == ZeroPad(serial, SERIAL_NUMBER_LENGTH)
  {
    FieldWidths(area, group, serial);
    var a, g, e := ZeroPad(area, AREA_NUMBER_LENGTH), ZeroPad(group, GROUP_NUMBER_LENGTH),
                   ZeroPad(serial, SERIAL_NUMBER_LENGTH);
    HyphenatedIff(Spelled(area, group, serial), a, g, e);
  }

  /** A padded area other than 666 never reads "666". */
  lemma AreaNot666(area: nat)
    requires area != FORBIDDEN_AREA
    ensures ZeroPad(area, AREA_NUMBER_LENGTH) != "666"
  {
    ZeroPadSpec(area, AREA_NUMBER_LENGTH);
    if ZeroPad(area, AREA_NUMBER_LENGTH) == "666" {
      Parse666();
    }
  }

  lemma Parse666()
    ensures ParseDigits("666") == FORBIDDEN_AREA
  {
    var s := "666";
    assert s[..2] == "66" && s[..2][..1] == "6" && s[..2][..1][..0] == "";
    assert ParseDigits("6") == 6;
    assert ParseDigits("66") == 66;
  }

  /** Every number get returns has the layout, its fields read back as the
      numbers drawn, and its area field never reads "666". */
  lemma GeneratedLayout(area: nat, group: nat, serial: nat)
    requires AREA_MIN <= area <= AREA_MAX && area != FORBIDDEN_AREA
    requires 1 <= group <= 99 && 1 <= serial <= 9999
    ensures var s := Spelled(area, group, serial);
            SsnLayout(s) && s[..3] != "666"
            && ParseDigits(ZeroPad(area, AREA_NUMBER_LENGTH)) == area
            && ParseDigits(ZeroPad(group, GROUP_NUMBER_LENGTH)) == group
            && ParseDigits(ZeroPad(serial, SERIAL_NUMBER_LENGTH)) == serial
  {
    SpelledFields(area, group, serial);
    AreaNot666(area);
    ZeroPadSpec(area, AREA_NUMBER_LENGTH);
    ZeroPadSpec(group, GROUP_NUMBER_LENGTH);
    ZeroPadSpec(serial, SERIAL_NUMBER_LENGTH);
  }
}
