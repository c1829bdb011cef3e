/** Companies: the immutable Company value, the host name a company name
    turns into (DefaultCompanyProvider.generateDomain), the override
    properties, and the fill-if-absent DefaultCompanyProvider draft. */
module Companies {
  import opened Wrappers
  import opened Chars
  import opened Random
  import opened Catalog
  import opened TextUtils

  /** Catalog keys of CompanyProvider. */
  const DOMAIN: string := "domains"
  const COMPANY_SUFFIX: string := "companySuffixes"
  const COMPANY_NAME: string := "companyNames"
  const COMPANY_EMAIL: string := "companyEmails"

  /** An escaped host longer than this is cut to it. */
  const MAX_ESCAPED_HOST_LENGTH: nat := 10
  const URL_PREFIX: string := "http://www."

  /** Company: four final fields; the getters are the field selectors. */
  datatype Company = Company(name: string, domain: string, email: string, vatIdentificationNumber: string)

  /** getUrl. */
  function Url(c: Company): string {
    URL_PREFIX + c.domain
  }

  /** The domain reads back from the URL, so two companies share a URL
      exactly when they share a domain. */
  lemma UrlDomain(c: Company, d: Company)
    ensures Url(c)[..|URL_PREFIX|] == URL_PREFIX && Url(c)[|URL_PREFIX|..] == c.domain
    ensures Url(c) == Url(d) <==> c.domain == d.domain
  {
    assert Url(c)[|URL_PREFIX|..] == c.domain;
    assert Url(d)[|URL_PREFIX|..] == d.domain;
  }

  /** getEmail: the mailbox joined to the domain with '@'. */
  function EmailAddress(c: Company): string {
    c.email + "@" + c.domain
  }

  /** When the mailbox holds no '@', the first '@' of the address is the
      one getEmail inserts, and the two sides read back as mailbox and domain. */
  lemma EmailAddressSplits(c: Company)
    requires '@' !in c.email
    ensures var e := EmailAddress(c);
            |e| == |c.email| + 1 + |c.domain| && e[|c.email|] == '@'
            && (forall i :: 0 <= i < |c.email| ==> e[i] != '@')
            && e[..|c.email|] == c.email && e[|c.email| + 1..] == c.domain
  {
    var e := EmailAddress(c);
    forall i | 0 <= i < |c.email| ensures e[i] != '@' {
      assert e[i] == c.email[i];
    }
  }

  /** Character.isWhitespace: the ASCII controls 9-13 and 28-31, the space,
      and the Unicode space separators other than the no-break spaces, plus
      the line and paragraph separators. */
  predicate IsJavaWhitespace(c: char) {
    ('\t' <= c <= '\r') || ('\U{1C}' <= c <= ' ') || c == '\U{1680}'
    || ('\U{2000}' <= c <= '\U{2006}') || ('\U{2008}' <= c <= '\U{200A}')
    || c == '\U{2028}' || c == '\U{2029}' || c == '\U{205F}' || c == '\U{3000}'
  }

  /** StringUtils.deleteWhitespace. */
  function DeleteWhitespace(s: string): (r: string)
    ensures |r| <= |s|
  {
    if s == [] then []
    else (if IsJavaWhitespace(s[0]) then [] else [s[0]]) + DeleteWhitespace(s[1..])
  }

  /** What deleteWhitespace keeps comes from the input and is no whitespace. */
  lemma {:induction false} DeleteWhitespaceShape(s: string)
    ensures forall x :: x in DeleteWhitespace(s) ==> x in s && !IsJavaWhitespace(x)
  {
    if s != [] {
      DeleteWhitespaceShape(s[1..]);
      assert s == [s[0]] + s[1..];
    }
  }

  /** StringUtils.stripStart(s, "c"). */
  function StripStart(s: string, c: char): (r: string)
    ensures |r| <= |s| && r == s[|s| - |r|..]
    ensures r == [] || r[0] != c
  {
    if s != [] && s[0] == c then StripStart(s[1..], c) else s
  }

  /** StringUtils.stripEnd(s, "c"). */
  function StripEnd(s: string, c: char): (r: string)
    ensures |r| <= |s| && r == s[..|r|]
    ensures r == [] || r[|r| - 1] != c
  {
    if s != [] && s[|s| - 1] == c then StripEnd(s[..|s| - 1], c) else s
  }

  /** StringUtils.strip(s, "c"): the character removed from both ends. */
  function Strip(s: string, c: char): (r: string)
    ensures |r| <= |s|
    ensures r == [] || (r[0] != c && r[|r| - 1] != c)
  {
    var t := StripStart(s, c);
    var r := StripEnd(t, c);
    assert r != [] ==> r[0] == t[0];
    r
  }

  /** The host before accents are stripped: lower-cased, whitespace deleted,
      dots stripped from both ends, then every '/' removed. */
  function PreparedHost(name: string): string {
    RemoveChar(Strip(DeleteWhitespace(Lower(name)), '.'), '/')
  }

  /** Deleting characters keeps every remaining one from the input. */
  lemma {:induction false} RemoveCharSubset(s: string, c: char)
    ensures forall x :: x in RemoveChar(s, c) ==> x in s
  {
    if s != [] {
      RemoveCharSubset(s[1..], c);
      RemoveCharHead(s[0], s[1..], c);
      assert s == [s[0]] + s[1..];
    }
  }

  /** Stripping an edge character keeps every remaining one from the input. */
  lemma StripSubset(s: string, c: char)
    ensures forall x :: x in Strip(s, c) ==> x in s
  {
    var t := StripStart(s, c);
    var r := Strip(s, c);
    forall i | 0 <= i < |r| ensures r[i] in s {
      assert r[i] == t[i] == s[|s| - |t| + i];
    }
  }

  /** Lower-casing leaves no ASCII capital. */
  lemma LowerHasNoUpper(s: string)
    ensures forall x :: x in Lower(s) ==> !IsUpper(x)
  {
  }

  /** The prepared host has no whitespace, no '/' and no ASCII capital. */
  lemma PreparedHostShape(name: string)
    ensures forall x :: x in PreparedHost(name) ==> x != '/' && !IsJavaWhitespace(x) && !IsUpper(x)
  {
    var d := DeleteWhitespace(Lower(name));
    var t := Strip(d, '.');
    LowerHasNoUpper(name);
    DeleteWhitespaceShape(Lower(name));
    StripSubset(d, '.');
    RemoveCharSubset(t, '/');
  }

  /** When the name holds no '/', the prepared host neither starts nor ends
      with a dot. */
  lemma PreparedHostEdges(name: string)
    requires '/' !in name
    ensures var h := PreparedHost(name);
            h == [] || (h[0] != '.' && h[|h| - 1] != '.')
  {
    var d := DeleteWhitespace(Lower(name));
    var t := Strip(d, '.');
    assert '/' !in Lower(name) by {
      forall i | 0 <= i < |name| ensures Lower(name)[i] != '/' {
        assert name[i] != '/';
      }
    }
    DeleteWhitespaceShape(Lower(name));
    assert '/' !in d;
    StripSubset(d, '.');
    assert '/' !in t;
    RemoveCharAbsent(t, '/');
  }

  /** The order of the clean-up matters: dots are stripped before '/' is
      removed, so "a./" leaves a host ending in a dot. */
  lemma PreparedHostTrailingDot()
    ensures PreparedHost("a./") == "a."
  {
    LowerOfExample();
    DeleteWhitespaceOfExample();
    StripOfExample();
    RemoveSlashOfExample();
  }

  lemma LowerOfExample()
    ensures Lower("a./") == "a./"
  {
  }

  lemma DeleteWhitespaceOfExample()
    ensures DeleteWhitespace("a./") == "a./"
  {
    var s := "a./";
    assert s[1..] == "./" && s[1..][1..] == "/" && s[1..][1..][1..] == [];
    assert DeleteWhitespace("/") == "/";
  }

  lemma StripOfExample()
    ensures Strip("a./", '.') == "a./"
  {
    assert StripStart("a./", '.') == "a./";
  }

  lemma RemoveSlashOfExample()
    ensures RemoveChar("a./", '/') == "a."
  {
    RemoveCharHead('/', [], '/');
    RemoveCharHead('.', "/", '/');
    RemoveCharHead('a', "./", '/');
    assert "a./" == ['a'] + "./" && "./" == ['.'] + "/" && "/" == ['/'] + [];
  }


  /** One upper-case hexadecimal digit. */
  function HexDigit(d: nat): (c: char)
    requires d < 16
    ensures c != '\\'
  {
    if d < 10 then ('0' as int + d) as char else ('A' as int + d - 10) as char
  }

  /** Four upper-case hexadecimal digits, as UnicodeEscaper writes a UTF-16
      unit. */
  function Hex4(n: nat): (r: string)
    requires n < 0x10000
    ensures |r| == 4 && '\\' !in r
  {
    [HexDigit(n / 0x1000), HexDigit(n / 0x100 % 16), HexDigit(n / 16 % 16), HexDigit(n % 16)]
  }

  /** A character JavaUnicodeEscaper.outsideOf(32, 0x7f) leaves alone. */
  predicate IsPrintableAscii(c: char) {
    32 <= c as int <= 0x7f
  }

  /** The `\uXXXX` form of a character: one unit in the Basic Multilingual
      Plane, a surrogate pair above it. */
  function UnicodeEscape(c: char): string {
    var n := c as int;
    if n <= 0xFFFF then "\\u" + Hex4(n)
    else
      var v := n - 0x10000;
      "\\u" + Hex4(0xD800 + v / 0x400) + "\\u" + Hex4(0xDC00 + v % 0x400)
  }

  /** StringEscapeUtils.escapeJava on one character: the quote and the
      backslash get a backslash, five control characters their letter
      escapes, every other character outside 32..0x7f its `\uXXXX` form. */
  function EscapeChar(c: char): string {
    if c == '"' then "\\\""
    else if c == '\\' then "\\\\"
    else if c == '\U{8}' then "\\b"
    else if c == '\n' then "\\n"
    else if c == '\t' then "\\t"
    else if c == '\U{C}' then "\\f"
    else if c == '\r' then "\\r"
    else if !IsPrintableAscii(c) then UnicodeEscape(c)
    else [c]
  }

  /** StringEscapeUtils.escapeJava. */
  function EscapeJava(s: string): string {
    if s == [] then [] else EscapeChar(s[0]) + EscapeJava(s[1..])
  }

  /** Text that needs no escape: printable ASCII without quote or backslash. */
  predicate PlainText(s: string) {
    forall i :: 0 <= i < |s| ==> IsPrintableAscii(s[i]) && s[i] != '"' && s[i] != '\\'
  }

  /** escapeJava leaves plain text as it is. */
  lemma {:induction false} EscapePlain(s: string)
    requires PlainText(s)
    ensures EscapeJava(s) == s
  {
    if s != [] {
      EscapePlain(s[1..]);
      assert s == [s[0]] + s[1..];
    }
  }

  /** replaceAll("\\\\u", ""): every backslash-u pair, scanned from the left
      without overlap, deleted. */
  function DropUnicodeMarks(s: string): (r: string)
    ensures |r| <= |s|
  {
    if |s| >= 2 && s[0] == '\\' && s[1] == 'u' then DropUnicodeMarks(s[2..])
    else if s == [] then []
    else [s[0]] + DropUnicodeMarks(s[1..])
  }

  /** A prefix without a backslash passes through unchanged. */
  lemma {:induction false} DropUnicodeMarksPlainPrefix(a: string, b: string)
    requires '\\' !in a
    ensures DropUnicodeMarks(a + b) == a + DropUnicodeMarks(b)
  {
    if a != [] {
      DropUnicodeMarksPlainPrefix(a[1..], b);
      var s := a + b;
      assert s[0] == a[0] != '\\';
      assert s[1..] == a[1..] + b;
      calc {
        DropUnicodeMarks(s);
        [a[0]] + DropUnicodeMarks(s[1..]);
        [a[0]] + (a[1..] + DropUnicodeMarks(b));
        { assert a == [a[0]] + a[1..]; }
        a + DropUnicodeMarks(b);
      }
    } else {
      assert a + b == b;
    }
  }

  /** Text without a backslash has nothing to delete. */
  lemma DropUnicodeMarksPlain(s: string)
    requires '\\' !in s
    ensures DropUnicodeMarks(s) == s
  {
    DropUnicodeMarksPlainPrefix(s, []);
    assert s + [] == s;
  }

  /** Text made only of characters beyond ASCII in the Basic Multilingual
      Plane (CJK, for one). */
  predicate WideText(s: string) {
    forall i :: 0 <= i < |s| ==> 0x7f < s[i] as int <= 0xFFFF
  }

  /** The hexadecimal code units of such text, four digits per character. */
  function HexUnits(s: string): (r: string)
    requires WideText(s)
    ensures |r| == 4 * |s|
  {
    if s == [] then [] else Hex4(s[0] as int) + HexUnits(s[1..])
  }

  /** A wide character escapes to its `\uXXXX` form. */
  lemma EscapeWide(c: char)
    requires 0x7f < c as int <= 0xFFFF
    ensures EscapeChar(c) == "\\u" + Hex4(c as int)
  {
  }

  /** A leading `\u` mark is deleted. */
  lemma DropLeadingMark(x: string)
    ensures DropUnicodeMarks("\\u" + x) == DropUnicodeMarks(x)
  {
    assert ("\\u" + x)[2..] == x;
  }

  /** One wide character escaped and stripped of its mark leaves its four
      hexadecimal digits in front of the rest. */
  lemma WideStep(c: char, t: string)
    requires 0x7f < c as int <= 0xFFFF
    ensures DropUnicodeMarks(EscapeJava([c] + t)) == Hex4(c as int) + DropUnicodeMarks(EscapeJava(t))
  {
    var h := Hex4(c as int);
    var rest := EscapeJava(t);
    assert ([c] + t)[0] == c && ([c] + t)[1..] == t;
    EscapeWide(c);
    assert EscapeJava([c] + t) == "\\u" + (h + rest);
    DropLeadingMark(h + rest);
    DropUnicodeMarksPlainPrefix(h, rest);
  }

  /** After escaping and deleting the `\u` marks, wide text becomes its
      hexadecimal code units. */
  lemma {:induction false} WideTextToHex(s: string)
    requires WideText(s)
    ensures DropUnicodeMarks(EscapeJava(s)) == HexUnits(s)
  {
    if s != [] {
      WideTextToHex(s[1..]);
      WideStep(s[0], s[1..]);
      assert s == [s[0]] + s[1..];
    }
  }

  /** The escaped host is cut to ten characters only when escaping made it
      longer than the host was and it exceeds ten. Both lengths are Java's:
      the escaped text is ASCII, the host may hold surrogate pairs. */
  function CutEscaped(host: string, escaped: string): (r: string) {
    if |escaped| > Utf16Length(host) && |escaped| > MAX_ESCAPED_HOST_LENGTH then escaped[..MAX_ESCAPED_HOST_LENGTH]
    else escaped
  }

  /** The cut host is a prefix of the escaped form; it is longer than ten
      characters only when escaping did not lengthen it. */
  lemma CutEscapedBound(host: string, escaped: string)
    ensures var r := CutEscaped(host, escaped);
            |r| <= |escaped| && r == escaped[..|r|]
            && (|r| > MAX_ESCAPED_HOST_LENGTH ==> |r| <= Utf16Length(host))
  {
    if !(|escaped| > Utf16Length(host) && |escaped| > MAX_ESCAPED_HOST_LENGTH) {
      assert escaped[..|escaped|] == escaped;
    }
  }

  /** The host generateDomain derives from a company name; `strip` is
      StringUtils.stripAccents. */
  function Host(strip: string -> string, name: string): string {
    var host := StripAccents(strip, PreparedHost(name));
    CutEscaped(host, DropUnicodeMarks(EscapeJava(host)))
  }

  /** A name whose host is plain text is never cut, however long it is. */
  lemma HostOfPlainName(strip: string -> string, name: string)
    requires PlainText(StripAccents(strip, PreparedHost(name)))
    ensures Host(strip, name) == StripAccents(strip, PreparedHost(name))
  {
    var host := StripAccents(strip, PreparedHost(name));
    Utf16LengthBmp(host);
    EscapePlain(host);
    assert '\\' !in host by {
      forall i | 0 <= i < |host| ensures host[i] != '\\' {
      }
    }
    DropUnicodeMarksPlain(host);
  }

  /** A host of three or more wide characters becomes the first ten
      hexadecimal digits of its code units. */
  lemma HostOfWideName(strip: string -> string, name: string)
    requires var host := StripAccents(strip, PreparedHost(name));
             WideText(host) && |host| >= 3
    ensures var host := StripAccents(strip, PreparedHost(name));
            Host(strip, name) == HexUnits(host)[..MAX_ESCAPED_HOST_LENGTH]
  {
    var host := StripAccents(strip, PreparedHost(name));
    WideTextToHex(host);
    Utf16LengthBmp(host);
    WideCut(host, HexUnits(host));
  }

  /** Hexadecimal units of three or more characters are cut to ten. */
  lemma WideCut(host: string, hex: string)
    requires Utf16Length(host) == |host| >= 3 && |hex| == 4 * |host|
    ensures CutEscaped(host, hex) == hex[..MAX_ESCAPED_HOST_LENGTH]
  {
  }

  /** Deleting whitespace from text that has none changes nothing. */
  lemma {:induction false} DeleteWhitespaceNone(s: string)
    requires forall i :: 0 <= i < |s| ==> !IsJavaWhitespace(s[i])
    ensures DeleteWhitespace(s) == s
  {
    if s != [] {
      DeleteWhitespaceNone(s[1..]);
    }
  }

  /** A name of wide characters without whitespace is its own prepared
      host: no ASCII letter to lower, no dot to strip, no slash to remove. */
  lemma PreparedWideName(name: string)
    requires WideText(name)
    requires forall i :: 0 <= i < |name| ==> !IsJavaWhitespace(name[i])
    ensures PreparedHost(name) == name
  {
    assert Lower(name) == name;
    DeleteWhitespaceNone(name);
    assert StripStart(name, '.') == name;
    assert StripEnd(name, '.') == name;
    assert '/' !in name by {
      forall i | 0 <= i < |name| ensures name[i] != '/' {
      }
    }
    RemoveCharAbsent(name, '/');
  }

  /** Such a name of three or more characters, under an accent stripper
      that leaves it alone, becomes the first ten hexadecimal digits of its
      UTF-16 units. */
  lemma HostOfWideText(strip: string -> string, name: string)
    requires WideText(name) && |name| >= 3 && strip(name) == name
    requires forall i :: 0 <= i < |name| ==> !IsJavaWhitespace(name[i])
    requires L_STROKE !in name && CAPITAL_L_STROKE !in name
    ensures Host(strip, name) == HexUnits(name)[..MAX_ESCAPED_HOST_LENGTH]
  {
    PreparedWideName(name);
    StripAccentsOnlyStrokes(strip, name);
    HostOfWideName(strip, name);
  }

  /** The units of a wide character followed by more text. */
  lemma HexUnitsCons(c: char, t: string)
    requires 0x7f < c as int <= 0xFFFF && WideText(t)
    ensures WideText([c] + t)
    ensures HexUnits([c] + t) == Hex4(c as int) + HexUnits(t)
  {
    assert ([c] + t)[1..] == t;
  }

  /** Four wide characters in a row give four groups of four digits. */
  lemma HexUnitsOfFour(a: char, b: char, c: char, d: char)
    requires 0x7f < a as int <= 0xFFFF && 0x7f < b as int <= 0xFFFF
    requires 0x7f < c as int <= 0xFFFF && 0x7f < d as int <= 0xFFFF
    ensures WideText([a, b, c, d])
    ensures HexUnits([a, b, c, d])
            == Hex4(a as int) + Hex4(b as int) + Hex4(c as int) + Hex4(d as int)
  {
    var empty: string := [];
    HexUnitsCons(d, empty);
    var t3 := [d] + empty;
    HexUnitsCons(c, t3);
    var t2 := [c] + t3;
    HexUnitsCons(b, t2);
    var t1 := [b] + t2;
    HexUnitsCons(a, t1);
    assert [a] + t1 == [a, b, c, d];
  }

  /** The digits of the first three units of 后海金融. */
  lemma ZhTestUnits()
    ensures Hex4(0x540E) == "540E" && Hex4(0x6D77) == "6D77" && Hex4(0x91D1) == "91D1"
  {
  }

  /** The first ten digits of the units of 后海金融. */
  lemma ZhTestNameHex(name: string)
    requires name == ['\U{540E}', '\U{6D77}', '\U{91D1}', '\U{878D}']
    ensures WideText(name)
    ensures HexUnits(name)[..MAX_ESCAPED_HOST_LENGTH] == "540E6D7791"
  {
    HexUnitsOfFour(name[0], name[1], name[2], name[3]);
    ZhTestUnits();
    var h := HexUnits(name);
    assert h == "540E6D7791D1" + Hex4(name[3] as int);
  }

  /** For 后海金融 (U+540E U+6D77 U+91D1 U+878D), under an accent stripper
      that leaves it alone, the host is 540E6D7791, as in the Chinese
      generator's test URL http://www.540E6D7791.cn. */
  lemma ZhTestHost(strip: string -> string, name: string)
    requires name == ['\U{540E}', '\U{6D77}', '\U{91D1}', '\U{878D}']
    requires strip(name) == name
    ensures Host(strip, name) == "540E6D7791"
  {
    ZhTestNameHex(name);
    assert forall i :: 0 <= i < |name| ==> !IsJavaWhitespace(name[i]);
    HostOfWideText(strip, name);
  }

  /** The domain: the host, a dot and a top-level domain. */
  function Domain(host: string, tld: string): string {
    host + "." + tld
  }

  /** The host and the top-level domain read back from the domain. */
  lemma DomainParts(host: string, tld: string)
    ensures var d := Domain(host, tld);
            |d| == |host| + 1 + |tld| && d[..|host|] == host && d[|host|] == '.' && d[|host| + 1..] == tld
  {
    var d := Domain(host, tld);
    assert d[..|host|] == host;
    assert d[|host| + 1..] == tld;
  }

  /** The name generateName builds: a catalog company name, with a space and
      a catalog suffix when the coin says so. */
  function CompanyName(base: string, suffix: Option<string>): string {
    if suffix.Some? then base + " " + suffix.value else base
  }

  /** A generated name starts with the catalog name, and carries the suffix
      after one space exactly when a suffix was drawn. */
  lemma CompanyNameParts(base: string, suffix: Option<string>)
    ensures var n := CompanyName(base, suffix);
            n[..|base|] == base
            && (suffix.None? <==> |n| == |base|)
            && (suffix.Some? ==> n[|base|] == ' ' && n[|base| + 1..] == suffix.value)
  {
    var n := CompanyName(base, suffix);
    if suffix.Some? {
      assert n[..|base|] == base;
      assert n[|base| + 1..] == suffix.value;
    }
  }

  /** CompanyProperties: each override names one field and its value. */
  datatype CompanyProperty =
    | WithName(name: string)
    | WithDomain(domain: string)
    | WithEmail(email: string)
    | WithVatIdentificationNumber(vatIdentificationNumber: string)

  /** The four draft fields of a provider; None is Java's null. */
  datatype Draft = Draft(name: Option<string>, domain: Option<string>, email: Option<string>,
                         vatIdentificationNumber: Option<string>)

  /** The draft after one override: its own field set, the others kept. */
  function Overridden(d: Draft, p: CompanyProperty): Draft {
    match p
    case WithName(v) => d.(name := Some(v))
    case WithDomain(v) => d.(domain := Some(v))
    case WithEmail(v) => d.(email := Some(v))
    case WithVatIdentificationNumber(v) => d.(vatIdentificationNumber := Some(v))
  }

  /** The draft after the overrides, applied in order. */
  function OverriddenAll(d: Draft, ps: seq<CompanyProperty>): Draft
    decreases |ps|
  {
    if ps == [] then d else OverriddenAll(Overridden(d, ps[0]), ps[1..])
  }

  /** An override of one field does not disturb the other three, and the
      last override of a field wins. */
  lemma OverrideIsolated(d: Draft, p: CompanyProperty, q: CompanyProperty)
    ensures p.WithName? ==> Overridden(d, p).(name := d.name) == d
    ensures p.WithDomain? ==> Overridden(d, p).(domain := d.domain) == d
    ensures p.WithEmail? ==> Overridden(d, p).(email := d.email) == d
    ensures p.WithVatIdentificationNumber? ==>
              Overridden(d, p).(vatIdentificationNumber := d.vatIdentificationNumber) == d
    ensures (p.WithName? && q.WithName?) || (p.WithDomain? && q.WithDomain?)
            || (p.WithEmail? && q.WithEmail?)
            || (p.WithVatIdentificationNumber? && q.WithVatIdentificationNumber?) ==>
              Overridden(Overridden(d, p), q) == Overridden(d, q)
  {
  }

  /** DefaultCompanyProvider: a draft whose missing fields get() fills in
      the order name, domain, e-mail, VAT number. */
  class CompanyProvider {
    var name: Option<string>
    var domain: Option<string>
    var email: Option<string>
    var vatIdentificationNumber: Option<string>

    const rng: RandomSource
    const dataMaster: DataMaster
    /** StringUtils.stripAccents. */
    const strip: string -> string

    ghost function Fields(): Draft
      reads this
    {
      Draft(name, domain, email, vatIdentificationNumber)
    }

    /** The injected constructor: every override applied in turn to an
        empty draft. */
    constructor(rng: RandomSource, dataMaster: DataMaster, strip: string -> string,
                properties: seq<CompanyProperty>)
      ensures this.rng == rng && this.dataMaster == dataMaster
      ensures this.strip == strip
      ensures Fields() == OverriddenAll(Draft(None, None, None, None), properties)
    {
      this.rng := rng;
      this.dataMaster := dataMaster;
      this.strip := strip;
      name, domain, email, vatIdentificationNumber := None, None, None, None;
      new;
      var i := 0;
      while i < |properties|
        invariant 0 <= i <= |properties|
        invariant OverriddenAll(Fields(), properties[i..])
                  == OverriddenAll(Draft(None, None, None, None), properties)
      {
        Apply(properties[i]);
        assert properties[i..][1..] == properties[i + 1..];
        i := i + 1;
      }
    }

    /** CompanyProperty.apply: one setter call. */
    method Apply(p: CompanyProperty)
      modifies this
      ensures Fields() == Overridden(old(Fields()), p)
    {
      match p
      case WithName(v) => SetName(v);
      case WithDomain(v) => SetDomain(v);
      case WithEmail(v) => SetEmail(v);
      case WithVatIdentificationNumber(v) => SetVatIdentificationNumber(v);
    }

    method SetName(v: string)
      modifies this
      ensures Fields() == old(Fields()).(name := Some(v))
    {
      name := Some(v);
    }

    method SetDomain(v: string)
      modifies this
      ensures Fields() == old(Fields()).(domain := Some(v))
    {
      domain := Some(v);
    }

    method SetEmail(v: string)
      modifies this
      ensures Fields() == old(Fields()).(email := Some(v))
    {
      email := Some(v);
    }

    method SetVatIdentificationNumber(v: string)
      modifies this
      ensures Fields() == old(Fields()).(vatIdentificationNumber := Some(v))
    {
      vatIdentificationNumber := Some(v);
    }

    /** generateName: a preset name is kept; otherwise a catalog company name,
        followed by a space and a catalog suffix when the coin says so. */
    method GenerateName() returns (o: Outcome, ghost base: string, ghost suffix: Option<string>)
      modifies this, rng, dataMaster.rng
      ensures old(name).Some? ==> o == Pass && Fields() == old(Fields())
      ensures Fields() == old(Fields()).(name := name)
      ensures old(name).None? && GetStringList(dataMaster.dataSource, COMPANY_NAME).Failure? ==> o.Fail?
      ensures old(name).None? && o.Pass? ==>
                name == Some(CompanyName(base, suffix)) && Listed(dataMaster.dataSource, COMPANY_NAME, base)
                && (suffix.Some? ==> Listed(dataMaster.dataSource, COMPANY_SUFFIX, suffix.value))
    {
      base, suffix := "", None;
      if name.Some? {
        return Pass, base, suffix;
      }
      var drawn := dataMaster.GetRandomValue(COMPANY_NAME);
      if drawn.Failure? {
        return Fail(drawn.error), base, suffix;
      }
      base := drawn.value;
      var n := drawn.value;
      var withSuffix := rng.TrueOrFalse();
      if withSuffix {
        var s := dataMaster.GetRandomValue(COMPANY_SUFFIX);
        if s.Failure? {
          return Fail(s.error), base, suffix;
        }
        suffix := Some(s.value);
        n := n + " " + s.value;
      }
      name := Some(n);
      o := Pass;
    }

    /** generateDomain: a preset domain is kept; otherwise the host derived
        from the name, a dot and a catalog top-level domain. A missing name
        is a null dereference. */
    method GenerateDomain() returns (o: Outcome, ghost tld: string)
      modifies this, rng, dataMaster.rng
      ensures old(domain).Some? ==> o == Pass && Fields() == old(Fields())
      ensures Fields() == old(Fields()).(domain := domain)
      ensures old(domain).None? && name.None? ==> o == Fail(NullPointer)
      ensures old(domain).None? && GetStringList(dataMaster.dataSource, DOMAIN).Failure? ==> o.Fail?
      ensures old(domain).None? && o.Pass? ==>
                name.Some? && domain == Some(Domain(Host(strip, name.value), tld))
                && Listed(dataMaster.dataSource, DOMAIN, tld)
    {
      tld := "";
      if domain.Some? {
        return Pass, tld;
      }
      if name.None? {
        return Fail(NullPointer), tld;
      }
      var host := Host(strip, name.value);
      o, tld := AppendTld(host);
    }

    /** The last line of generateDomain: the host, a dot and a catalog
        top-level domain. */
    method AppendTld(host: string) returns (o: Outcome, ghost tld: string)
      modifies this, dataMaster.rng
      ensures Fields() == old(Fields()).(domain := domain)
      ensures GetStringList(dataMaster.dataSource, DOMAIN).Failure? ==> o.Fail? && domain == old(domain)
      ensures o.Fail? ==> domain == old(domain)
      ensures o.Pass? ==> domain == Some(Domain(host, tld)) && Listed(dataMaster.dataSource, DOMAIN, tld)
    {
      tld := "";
      var drawn := dataMaster.GetRandomValue(DOMAIN);
      if drawn.Failure? {
        return Fail(drawn.error), tld;
      }
      tld := drawn.value;
      domain := Some(host + "." + drawn.value);
      o := Pass;
    }

    /** generateEmail: a preset mailbox is kept; otherwise a catalog one. */
    method GenerateEmail() returns (o: Outcome)
      modifies this, rng, dataMaster.rng
      ensures old(email).Some? ==> o == Pass && Fields() == old(Fields())
      ensures Fields() == old(Fields()).(email := email)
      ensures old(email).None? && GetStringList(dataMaster.dataSource, COMPANY_EMAIL).Failure? ==> o.Fail?
      ensures old(email).None? && o.Pass? ==>
                email.Some? && Listed(dataMaster.dataSource, COMPANY_EMAIL, email.value)
    {
      if email.Some? {
        return Pass;
      }
      var drawn := dataMaster.GetRandomValue(COMPANY_EMAIL);
      if drawn.Failure? {
        return Fail(drawn.error);
      }
      email := Some(drawn.value);
      o := Pass;
    }

    /** generateVatIdentificationNumber: a preset number is kept; otherwise
        the number the locale's VAT provider yields, given as `vat`. */
    method GenerateVatIdentificationNumber(vat: string)
      modifies this
      ensures old(vatIdentificationNumber).Some? ==> Fields() == old(Fields())
      ensures old(vatIdentificationNumber).None? ==> Fields() == old(Fields()).(vatIdentificationNumber := Some(vat))
    {
      if vatIdentificationNumber.Some? {
        return;
      }
      vatIdentificationNumber := Some(vat);
    }

    /** get: the four steps in order, then the immutable Company. */
    method Get(vat: string) returns (r: Result<Company>, ghost base: string, ghost suffix: Option<string>, ghost tld: string)
      modifies this, rng, dataMaster.rng
      ensures old(name).Some? ==> name == old(name)
      ensures old(domain).Some? ==> domain == old(domain)
      ensures old(email).Some? ==> email == old(email)
      ensures old(vatIdentificationNumber).Some? ==> vatIdentificationNumber == old(vatIdentificationNumber)
      ensures old(name).None? && GetStringList(dataMaster.dataSource, COMPANY_NAME).Failure? ==> r.Failure?
      ensures r.Success? ==>
                name.Some? && domain.Some? && email.Some? && vatIdentificationNumber.Some?
                && r.value == Company(name.value, domain.value, email.value, vatIdentificationNumber.value)
      ensures r.Success? && old(name).None? ==>
                r.value.name == CompanyName(base, suffix) && Listed(dataMaster.dataSource, COMPANY_NAME, base)
      ensures r.Success? && old(domain).None? ==>
                r.value.domain == Domain(Host(strip, r.value.name), tld)
                && Listed(dataMaster.dataSource, DOMAIN, tld)
      ensures r.Success? && old(email).None? ==> Listed(dataMaster.dataSource, COMPANY_EMAIL, r.value.email)
      ensures r.Success? && old(vatIdentificationNumber).None? ==> r.value.vatIdentificationNumber == vat
    {
      var o;
      o, base, suffix := GenerateName();
      if o.Fail? {
        return Failure(o.error), base, suffix, "";
      }
      o, tld := GenerateDomain();
      if o.Fail? {
        return Failure(o.error), base, suffix, tld;
      }
      o := GenerateEmail();
      if o.Fail? {
        return Failure(o.error), base, suffix, tld;
      }
      GenerateVatIdentificationNumber(vat);
      r := Success(Company(name.value, domain.value, email.value, vatIdentificationNumber.value));
    }
  }
}
