/** NetworkProducer.url: a fake URL whose host is the dot-free IP address
    with every character shifted up by 97. The IP address comes from a
    producer outside this model and is a parameter. */
module Network {
  import opened Chars

  const SHIFT: int := 97
  /** Characters this far below the surrogate block still shift to a
      character. */
  const SHIFTABLE_LIMIT: int := 0xD800 - SHIFT

  predicate Shiftable(s: string) {
    forall i :: 0 <= i < |s| ==> s[i] as int < SHIFTABLE_LIMIT
  }

  /** The host a dot-free IP maps to: (char) (c + 97) for each character. */
  function Shifted(s: string): (r: string)
    requires Shiftable(s)
  {
    seq(|s|, i requires 0 <= i < |s| => (s[i] as int + SHIFT) as char)
  }

  /** The inverse map: each character shifted back down by 97. */
  function Unshifted(s: string): (r: string)
    requires forall i :: 0 <= i < |s| ==> SHIFT <= s[i] as int < 0xD800
  {
    seq(|s|, i requires 0 <= i < |s| => (s[i] as int - SHIFT) as char)
  }

  /** Shifting loses nothing: the host gives back the dot-free IP. */
  lemma ShiftedRoundTrip(s: string)
    requires Shiftable(s)
    ensures var h := Shifted(s);
            (forall i :: 0 <= i < |h| ==> SHIFT <= h[i] as int < 0xD800) && Unshifted(h) == s
  {
  }

  /** A dotted-decimal address maps to characters U+0091..U+009A, one per
      digit. */
  lemma DigitsShift(s: string)
    requires AllDigits(s)
    ensures Shiftable(s)
    ensures forall i :: 0 <= i < |s| ==> Shifted(s)[i] as int == s[i] as int + SHIFT
    ensures forall i :: 0 <= i < |s| ==> 0x91 <= Shifted(s)[i] as int <= 0x9A
  {
  }

  lemma RemoveDotsShiftable(ip: string)
    requires Shiftable(ip)
    ensures Shiftable(RemoveChar(ip, '.'))
    decreases |ip|
  {
    if ip != [] {
      RemoveDotsShiftable(ip[1..]);
    }
  }

  function Scheme(isHttps: bool): string {
    if isHttps then "https://" else "http://"
  }

  /** url(isHttps): the dots are removed from the IP, the characters of a
      char array copy of it are shifted in place, and the host is put
      between the scheme and ".com". */
  method Url(ip: string, isHttps: bool) returns (r: string)
    requires Shiftable(ip)
    ensures Shiftable(RemoveChar(ip, '.')) && r == Scheme(isHttps) + Shifted(RemoveChar(ip, '.')) + ".com"
  {
    var mergedIp := RemoveChar(ip, '.');
    RemoveDotsShiftable(ip);
    var domainChars := new char[|mergedIp|](i requires 0 <= i < |mergedIp| => mergedIp[i]);
    for i := 0 to domainChars.Length
      invariant forall j :: 0 <= j < i ==> domainChars[j] == (mergedIp[j] as int + SHIFT) as char
      invariant forall j :: i <= j < domainChars.Length ==> domainChars[j] == mergedIp[j]
    {
      var c := domainChars[i];
      domainChars[i] := (c as int + SHIFT) as char;
    }
    var domain := domainChars[..];
    assert domain == Shifted(mergedIp) by {
      var h := Shifted(mergedIp);
      assert |domain| == |h|;
      forall j | 0 <= j < |h| ensures domain[j] == h[j] {
      }
    }
    r := Scheme(isHttps) + domain + ".com";
  }

  /** The URL begins with "https://" exactly when isHttps, and always ends
      with ".com"; its host is as long as the IP without its dots. */
  lemma UrlShape(ip: string, isHttps: bool)
    requires Shiftable(ip)
    ensures Shiftable(RemoveChar(ip, '.'))
    ensures var r := Scheme(isHttps) + Shifted(RemoveChar(ip, '.')) + ".com";
            (|r| >= 8 && r[..8] == "https://" <==> isHttps)
            && (!isHttps ==> r[..7] == "http://")
            && r[|r| - 4..] == ".com"
            && |r| == |Scheme(isHttps)| + |ip| - Occurrences(ip, '.') + 4
  {
    RemoveDotsShiftable(ip);
    RemoveCharLength(ip, '.');
    var h := Shifted(RemoveChar(ip, '.'));
    var r := Scheme(isHttps) + h + ".com";
    assert r[|r| - 4..] == ".com";
    if isHttps {
      assert r[..8] == "https://";
    } else {
      assert r[..7] == "http://";
      assert r[4] == ':';
    }
  }
}
