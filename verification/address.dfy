/** Addresses: the five-field value (AbstractAddress), its Chinese
    formatting (ZhAddress), and the draws that fill it (AbstractAddressProvider,
    ZhAddressProvider). */
module Addresses {
  import opened Wrappers
  import opened Chars
  import opened Random
  import opened Catalog

  const POSTAL_CODE_FORMAT: string := "postal_code"
  const CITY: string := "city"
  const STREET: string := "street"

  const STREET_NUMBER_MAX: int := 199
  const APARTMENT_NUMBER_MAX: int := 350
  const ZH_FLOOR_MAX: int := 38
  const ZH_ROOM_MAX: int := 8

  const ZH_CITY: string := "市"
  const ZH_NUMBER: string := "号"
  const ZH_ROOM: string := "房"
  const ZH_POSTCODE: string := "邮编"

  /** AbstractAddress: the fields every address carries. */
  datatype Address = Address(street: string, streetNumber: string, apartmentNumber: string,
                             postalCode: string, city: string)

  /** The ZhAddress constructor takes (streetNumber, street, apartmentNumber,
      city, postalCode) and hands them on in the base order. */
  function ZhAddress(streetNumber: string, street: string, apartmentNumber: string, city: string, postalCode: string): (a: Address)
    ensures a.streetNumber == streetNumber && a.street == street && a.apartmentNumber == apartmentNumber
    ensures a.city == city && a.postalCode == postalCode
  {
    Address(street, streetNumber, apartmentNumber, postalCode, city)
  }

  /** city 市 street number 号, then " " apartment 房 when there is an apartment. */
  function ZhAddressLine1(a: Address): string {
    var line := a.city + ZH_CITY + a.street + a.streetNumber + ZH_NUMBER;
    if |a.apartmentNumber| > 0 then line + " " + a.apartmentNumber + ZH_ROOM else line
  }

  /** 邮编, a space and the postal code. */
  function ZhAddressLine2(a: Address): string {
    ZH_POSTCODE + " " + a.postalCode
  }

  /** toString: line 1, the platform line separator, line 2. */
  function ToString(a: Address, lineSeparator: string): string {
    ZhAddressLine1(a) + lineSeparator + ZhAddressLine2(a)
  }

  /** Line 1 always opens with city 市 street number 号, and ends with 房
      exactly when there is an apartment. */
  lemma ZhLine1Shape(a: Address)
    ensures var head := a.city + ZH_CITY + a.street + a.streetNumber + ZH_NUMBER;
            var line := ZhAddressLine1(a);
            |line| >= |head| && line[..|head|] == head
            && (line[|line| - 1] == '房' <==> a.apartmentNumber != "")
            && (a.apartmentNumber == "" <==> line == head)
  {
    var head := a.city + ZH_CITY + a.street + a.streetNumber + ZH_NUMBER;
    var line := ZhAddressLine1(a);
    if a.apartmentNumber != "" {
      assert line == head + (" " + a.apartmentNumber + ZH_ROOM);
    }
  }

  /** The text after the last line separator is line 2, so the postal code
      can be read back from it when the separator is a single character the
      code does not hold. */
  lemma ToStringPostalCode(a: Address, sep: char)
    requires sep !in a.postalCode
    ensures var s := ToString(a, [sep]);
            var n := |a.postalCode| + 3;
            |s| > n && s[|s| - n - 1] == sep && s[|s| - n..] == ZhAddressLine2(a)
            && s[|s| - |a.postalCode|..] == a.postalCode
  {
    var s := ToString(a, [sep]);
    assert s == (ZhAddressLine1(a) + [sep]) + ZhAddressLine2(a);
  }

  /** getStreetNumber: String.valueOf(randomBetween(1, 199)). */
  method GetStreetNumber(rng: RandomSource) returns (r: string, ghost n: nat)
    modifies rng
    ensures 1 <= n <= STREET_NUMBER_MAX && r == NatToString(n)
  {
    var drawn := rng.RandomBetween(1, STREET_NUMBER_MAX);
    n := drawn;
    r := IntToString(drawn);
  }

  /** getApartmentNumber: a coin toss, then "" or String.valueOf(randomBetween(1, 350)). */
  method GetApartmentNumber(rng: RandomSource) returns (r: string, ghost n: nat)
    modifies rng
    ensures r == "" || (1 <= n <= APARTMENT_NUMBER_MAX && r == NatToString(n))
  {
    var toss := rng.TrueOrFalse();
    if toss {
      var drawn := rng.RandomBetween(1, APARTMENT_NUMBER_MAX);
      n := drawn;
      r := IntToString(drawn);
    } else {
      n := 0;
      r := "";
    }
  }

  /** A generated street or apartment number reads back as the number drawn. */
  lemma NumberReadsBack(n: nat)
    ensures AllDigits(NatToString(n)) && ParseDigits(NatToString(n)) == n
  {
    ParseNatToString(n);
  }

  /** ZhAddressProvider.getApartmentNumber: a coin toss, then "" or the
      floor randomInt(38), a "0" and the room randomInt(8). */
  method ZhGetApartmentNumber(rng: RandomSource) returns (r: string, ghost floor: nat, ghost room: nat)
    modifies rng
    ensures floor <= ZH_FLOOR_MAX && room <= ZH_ROOM_MAX
    ensures r == "" || r == ZhApartment(floor, room)
  {
    var toss := rng.TrueOrFalse();
    floor, room := 0, 0;
    r := "";
    if toss {
      var f := rng.RandomInt(ZH_FLOOR_MAX);
      var rm := rng.RandomInt(ZH_ROOM_MAX);
      floor, room := f, rm;
      r := IntToString(f) + "0" + IntToString(rm);
    }
  }

  function ZhApartment(floor: nat, room: nat): string {
    NatToString(floor) + "0" + NatToString(room)
  }

  /** A Chinese apartment number splits back into floor and room: the last
      character is the room, the one before it is the "0", and the rest is
      the floor. */
  lemma ZhApartmentReadsBack(floor: nat, room: nat)
    requires room <= ZH_ROOM_MAX
    ensures var s := ZhApartment(floor, room);
            |s| >= 3 && AllDigits(s) && s[|s| - 2] == '0'
            && ParseDigits(s[..|s| - 2]) == floor && DigitValue(s[|s| - 1]) == room
  {
    var f := NatToString(floor);
    var s := ZhApartment(floor, room);
    assert NatToString(room) == [DigitChar(room)];
    assert s[..|s| - 2] == f;
    ParseNatToString(floor);
  }

  /** getCity: a random entry of the catalog list "city". */
  method GetCity(dataMaster: DataMaster) returns (r: Result<string>)
    modifies dataMaster.rng
    ensures GetStringList(dataMaster.dataSource, CITY).Failure? ==> r.Failure?
    ensures r.Success? ==> YStr(r.value) in GetStringList(dataMaster.dataSource, CITY).value
  {
    r := dataMaster.GetRandomValue(CITY);
  }

  /** getStreet: a random entry of the catalog list "street". */
  method GetStreet(dataMaster: DataMaster) returns (r: Result<string>)
    modifies dataMaster.rng
    ensures GetStringList(dataMaster.dataSource, STREET).Failure? ==> r.Failure?
    ensures r.Success? ==> YStr(r.value) in GetStringList(dataMaster.dataSource, STREET).value
  {
    r := dataMaster.GetRandomValue(STREET);
  }

  /** getPostalCode: a random format of the list "postal_code", numerified. */
  method GetPostalCode(rng: RandomSource, dataMaster: DataMaster) returns (r: Result<string>, ghost format: string)
    modifies rng, dataMaster.rng
    ensures GetStringList(dataMaster.dataSource, POSTAL_CODE_FORMAT).Failure? ==> r.Failure?
    ensures r.Success? ==>
              YStr(format) in GetStringList(dataMaster.dataSource, POSTAL_CODE_FORMAT).value
              && Numerified(format, r.value)
  {
    var chosen := dataMaster.GetRandomValue(POSTAL_CODE_FORMAT);
    if chosen.Failure? {
      return Failure(chosen.error), "";
    }
    format := chosen.value;
    var code := rng.Numerify(chosen.value);
    r := Success(code);
  }

  /** ZhAddressProvider.get: street number, street, apartment, city and postal
      code, drawn in that order, make a ZhAddress; the first lookup that
      throws ends the draws. */
  method ZhGet(rng: RandomSource, dataMaster: DataMaster) returns (r: Result<Address>, ghost number: nat, ghost floor: nat, ghost room: nat, ghost format: string)
    modifies rng, dataMaster.rng
    ensures GetStringList(dataMaster.dataSource, STREET).Failure? ==> r.Failure?
    ensures GetStringList(dataMaster.dataSource, CITY).Failure? ==> r.Failure?
    ensures GetStringList(dataMaster.dataSource, POSTAL_CODE_FORMAT).Failure? ==> r.Failure?
    ensures r.Success? ==>
              var a := r.value;
              1 <= number <= STREET_NUMBER_MAX && a.streetNumber == NatToString(number)
              && YStr(a.street) in GetStringList(dataMaster.dataSource, STREET).value
              && floor <= ZH_FLOOR_MAX && room <= ZH_ROOM_MAX
              && (a.apartmentNumber == "" || a.apartmentNumber == ZhApartment(floor, room))
              && YStr(a.city) in GetStringList(dataMaster.dataSource, CITY).value
              && YStr(format) in GetStringList(dataMaster.dataSource, POSTAL_CODE_FORMAT).value
              && Numerified(format, a.postalCode)
  {
    floor, room, format := 0, 0, "";
    var streetNumber;
    streetNumber, number := GetStreetNumber(rng);
    var street := GetStreet(dataMaster);
    if street.Failure? {
      return Failure(street.error), number, floor, room, format;
    }
    var apartment;
    apartment, floor, room := ZhGetApartmentNumber(rng);
    var city := GetCity(dataMaster);
    if city.Failure? {
      return Failure(city.error), number, floor, room, format;
    }
    var postalCode;
    postalCode, format := GetPostalCode(rng, dataMaster);
    if postalCode.Failure? {
      return Failure(postalCode.error), number, floor, room, format;
    }
    r := Success(ZhAddress(streetNumber, street.value, apartment, city.value, postalCode.value));
  }
}
