/** ZhGeneratorUtil: the province codes and the zero-padded random numbers
    the Chinese identity and VAT numbers are built from. */
module ZhUtil {
  import opened Wrappers
  import opened Chars
  import opened Random

  /** Codes of the Chinese provinces. */
  const PROV_LIST: seq<string> := [
    "11", "12", "13", "14", "15", "21", "22", "23", "31", "32", "33",
    "34", "35", "36", "41", "42", "43", "44", "45", "46", "50", "51",
    "52", "53", "54", "61", "62", "63", "64", "65", "71", "81", "82"]

  /** Largest city code. */
  const CITY_MAX: int := 30
  /** Largest city-district code. */
  const DISTRICT_MAX: int := 12

  /** Every province code is two digits. */
  lemma ProvinceCodes()
    ensures |PROV_LIST| == 33
    ensures forall i :: 0 <= i < |PROV_LIST| ==> |PROV_LIST[i]| == 2 && AllDigits(PROV_LIST[i])
  {
  }

  /** getRandomNumStr: a draw in [1, max] written in decimal, with '0'
      prepended until it has `paddingSize` characters. A `max` below 1 makes
      the range empty. */
  method GetRandomNumStr(rng: RandomSource, max: int, paddingSize: int) returns (r: Result<string>, ghost n: int)
    modifies rng
    ensures max < 1 ==> r == Failure(BadRange)
    ensures max >= 1 ==> 1 <= n <= max && r == Success(LeftPad(NatToString(n), paddingSize, '0'))
  {
    var drawn := rng.CheckedBetween(1, max);
    if drawn.Failure? {
      return Failure(drawn.error), 0;
    }
    var rndNum := drawn.value;
    n := rndNum;
    var digits := IntToString(rndNum);
    var numStr := digits;
    while |numStr| < paddingSize
      invariant |digits| <= |numStr|
      invariant numStr == seq(|numStr| - |digits|, _ => '0') + digits
      invariant |numStr| > |digits| ==> |numStr| <= paddingSize
      decreases paddingSize - |numStr|
    {
      numStr := "0" + numStr;
    }
    r := Success(numStr);
  }

  /** The padded number reads back as the number drawn; it is never cut, so
      it is as long as the padding or as the number's digits, whichever is
      longer. */
  lemma PaddedNumber(n: nat, paddingSize: int)
    ensures var s := LeftPad(NatToString(n), paddingSize, '0');
            AllDigits(s) && ParseDigits(s) == n
            && |s| == if paddingSize > |NatToString(n)| then paddingSize else |NatToString(n)|
  {
    var d := NatToString(n);
    ParseNatToString(n);
    if |d| < paddingSize {
      ParseLeadingZeros(paddingSize - |d|, d);
    }
  }

  /** A city (at most 30) or district (at most 12) code padded to two has
      exactly two digits. */
  lemma TwoDigitCodes(n: nat)
    requires 1 <= n <= CITY_MAX
    ensures |LeftPad(NatToString(n), 2, '0')| == 2
  {
    Pow10Values();
    NatToStringLength(n, 2);
  }
}
