/** The US Employer Identification Number builder
    (EnVATIdentificationNumberProvider): a ten-character array holding a
    two-digit area, a hyphen and a seven-digit serial. */
module EnEin {
  import opened Wrappers
  import opened Chars
  import opened Random
  import opened JavaArrays

  const EIN_LENGTH: nat := 10
  const HYPHEN_INDEX: nat := 2
  const SERIAL_NUMBER_LENGTH: nat := 7
  const SERIAL_NUMBER_INDEX: nat := 3
  const AREA_NUMBER_LENGTH: nat := 2

  /** Area numbers that are never issued. */
  const EXCLUDED_NUMBERS: set<int> := {7, 8, 9, 17, 18, 19, 28, 29, 41, 47, 49, 69, 70, 79, 89, 96, 97}

  /** The area number a raw draw stands for: randomBetween(0, 99). */
  function AreaDraw(d: nat): (area: int)
    ensures 0 <= area <= 99
  {
    d % 100
  }

  /** Digits everywhere except the hyphen at 2. */
  predicate EinLayout(s: string) {
    |s| == EIN_LENGTH && s[HYPHEN_INDEX] == '-'
    && AllDigits(s[..HYPHEN_INDEX]) && AllDigits(s[SERIAL_NUMBER_INDEX..])
  }

  /** The number the two drawn fields spell. */
  function Spelled(area: nat, serial: nat): string {
    ZeroPad(area, AREA_NUMBER_LENGTH) + "-" + ZeroPad(serial, SERIAL_NUMBER_LENGTH)
  }

  /** fillHyphen: '-' at index 2, the rest untouched. */
  method FillHyphen(ein: array<char>)
    requires ein.Length == EIN_LENGTH
    modifies ein
    ensures ein[..] == old(ein[..])[HYPHEN_INDEX := '-']
  {
    ein[HYPHEN_INDEX] := '-';
  }

  /** fillAreaNumber: draws in [0, 99] until the number is not excluded,
      then copies it, padded to two digits, to the front. `until` is a draw
      position at which the loop is sure to stop. */
  method FillAreaNumber(rng: RandomSource, ein: array<char>, ghost until: nat) returns (ghost area: nat)
    requires ein.Length == EIN_LENGTH
    requires rng.position <= until && AreaDraw(rng.draws(until)) !in EXCLUDED_NUMBERS
    modifies rng, ein
    ensures area <= 99 && area !in EXCLUDED_NUMBERS
    ensures ein[..] == ZeroPad(area, AREA_NUMBER_LENGTH) + old(ein[AREA_NUMBER_LENGTH..])
  {
    var number: int;
    while true
      invariant rng.position <= until
      modifies rng
      decreases until - rng.position
    {
      number := rng.RandomBetween(0, 99);
      if number !in EXCLUDED_NUMBERS {
        break;
      }
    }
    area := number;
    Pow10Values();
    var digits := LeftPad(IntToString(number), AREA_NUMBER_LENGTH, '0');
    ZeroPadWidth(area, AREA_NUMBER_LENGTH);
    var o := ArrayCopy(digits, ein, 0);
    assert old(ein[..0]) == [];
  }

  /** fillSerialNumber: a draw in [1, 9999], padded to seven digits, at index 3. */
  method FillSerialNumber(rng: RandomSource, ein: array<char>) returns (ghost serial: nat)
    requires ein.Length == EIN_LENGTH
    modifies rng, ein
    ensures 1 <= serial <= 9999
    ensures ein[..] == old(ein[..SERIAL_NUMBER_INDEX]) + ZeroPad(serial, SERIAL_NUMBER_LENGTH)
  {
    var drawn := rng.RandomBetween(1, 9999);
    serial := drawn;
    Pow10Values();
    var digits := LeftPad(IntToString(drawn), SERIAL_NUMBER_LENGTH, '0');
    ZeroPadWidth(serial, SERIAL_NUMBER_LENGTH);
    var o := ArrayCopy(digits, ein, SERIAL_NUMBER_INDEX);
    assert old(ein[SERIAL_NUMBER_INDEX + SERIAL_NUMBER_LENGTH..]) == [];
  }

  /** get: hyphen, area and serial written into a ten-character array. */
  method Get(rng: RandomSource, ghost until: nat) returns (r: string, ghost area: nat, ghost serial: nat)
    requires rng.position <= until && AreaDraw(rng.draws(until)) !in EXCLUDED_NUMBERS
    modifies rng
    ensures area <= 99 && area !in EXCLUDED_NUMBERS && 1 <= serial <= 9999
    ensures r == Spelled(area, serial)
    ensures EinLayout(r) && r[SERIAL_NUMBER_INDEX..SERIAL_NUMBER_INDEX + 3] == "000"
  {
    var ein := new char[EIN_LENGTH];
    FillHyphen(ein);
    area := FillAreaNumber(rng, ein, until);
    serial := FillSerialNumber(rng, ein);
    r := ein[..];
    Pow10Values();
    ZeroPadWidth(area, AREA_NUMBER_LENGTH);
    ZeroPadWidth(serial, SERIAL_NUMBER_LENGTH);
    HyphenatedIff(r, ZeroPad(area, AREA_NUMBER_LENGTH), ZeroPad(serial, SERIAL_NUMBER_LENGTH));
    GeneratedLayout(area, serial);
  }

  /** A string is area, hyphen and serial exactly when it holds them at
      their positions. */
  lemma HyphenatedIff(r: string, area: string, serial: string)
    requires |area| == AREA_NUMBER_LENGTH && |serial| == SERIAL_NUMBER_LENGTH
    ensures r == area + "-" + serial <==>
              |r| == EIN_LENGTH && r[..HYPHEN_INDEX] == area && r[HYPHEN_INDEX] == '-'
              && r[SERIAL_NUMBER_INDEX..] == serial
  {
    if |r| == EIN_LENGTH && r[..HYPHEN_INDEX] == area && r[HYPHEN_INDEX] == '-'
       && r[SERIAL_NUMBER_INDEX..] == serial {
      assert r == r[..HYPHEN_INDEX] + [r[HYPHEN_INDEX]] + r[SERIAL_NUMBER_INDEX..];
    }
  }

  /** A serial below 10000 takes at most four of the seven places, so its
      padding starts with three zeros. */
  lemma SerialLeadingZeros(serial: nat)
    requires serial <= 9999
    ensures |ZeroPad(serial, SERIAL_NUMBER_LENGTH)| == SERIAL_NUMBER_LENGTH
    ensures ZeroPad(serial, SERIAL_NUMBER_LENGTH)[..3] == "000"
  {
    Pow10Values();
    ZeroPadWidth(serial, SERIAL_NUMBER_LENGTH);
    NatToStringLength(serial, 4);
    var s := NatToString(serial);
    LeftPadSpec(s, SERIAL_NUMBER_LENGTH, '0');
    var r := ZeroPad(serial, SERIAL_NUMBER_LENGTH);
    assert r[0] == '0' && r[1] == '0' && r[2] == '0';
  }

  /** Every number get returns has the layout, zeros at 3 to 5, and fields
      that read back as the numbers drawn. */
  lemma GeneratedLayout(area: nat, serial: nat)
    requires area <= 99 && 1 <= serial <= 9999
    ensures var s := Spelled(area, serial);
            EinLayout(s) && s[SERIAL_NUMBER_INDEX..SERIAL_NUMBER_INDEX + 3] == "000"
            && ParseDigits(s[..HYPHEN_INDEX]) == area
            && ParseDigits(s[SERIAL_NUMBER_INDEX..]) == serial
  {
    Pow10Values();
    ZeroPadWidth(area, AREA_NUMBER_LENGTH);
    SerialLeadingZeros(serial);
    var a, e := ZeroPad(area, AREA_NUMBER_LENGTH), ZeroPad(serial, SERIAL_NUMBER_LENGTH);
    var s := Spelled(area, serial);
    HyphenatedIff(s, a, e);
    assert s[SERIAL_NUMBER_INDEX..SERIAL_NUMBER_INDEX + 3] == e[..3];
    ZeroPadSpec(area, AREA_NUMBER_LENGTH);
    ZeroPadSpec(serial, SERIAL_NUMBER_LENGTH);
  }
}
