/** The Spanish builders: the DNI (eight digits, a hyphen, a letter) and the
    CIF company tax code (a letter, seven digits, a letter or digit), each
    with its regular-expression validator. */
module EsIds {
  import opened Chars
  import opened Regex

  const DNI_DIGITS: nat := 8
  const CIF_DIGITS: nat := 7
  const CIF_LENGTH: nat := 9

  /** ^\d{8}([-]?)[A-Z]$ */
  const DNI_PATTERN: Pattern := [Exactly(DIGIT, DNI_DIGITS), Optional(OneOf("-")), Exactly(UPPER, 1)]

  /** ([KPQSABEH]|[0-9]|[A-Z]) */
  const CIF_CONTROL: CharClass := Either(OneOf("KPQSABEH"), Either(DIGIT, UPPER))

  /** ^[A-Z][0-9]{2}[0-9]{5}([KPQSABEH]|[0-9]|[A-Z])$ */
  const CIF_PATTERN: Pattern := [Exactly(UPPER, 1), Exactly(DIGIT, 2), Exactly(DIGIT, 5), Exactly(CIF_CONTROL, 1)]

  /** EsNationalIdentityCardNumberProvider.isValid */
  predicate IsValidDni(s: string) { Matches(DNI_PATTERN, s) }

  /** EsVATIdentificationNumberProvider.isValid */
  predicate IsValidCif(s: string) { Matches(CIF_PATTERN, s) }

  /** Eight digits, an optional hyphen and an upper-case letter. */
  predicate DniShape(s: string) {
    (|s| == DNI_DIGITS + 1 || (|s| == DNI_DIGITS + 2 && s[DNI_DIGITS] == '-'))
    && AllDigits(s[..DNI_DIGITS]) && IsUpper(s[|s| - 1])
  }

  /** An upper-case letter, seven digits and an upper-case letter or digit. */
  predicate CifShape(s: string) {
    |s| == CIF_LENGTH && IsUpper(s[0]) && AllDigits(s[1..CIF_LENGTH - 1])
    && (IsUpper(s[CIF_LENGTH - 1]) || IsDigit(s[CIF_LENGTH - 1]))
  }

  lemma DigitsInClass(s: string)
    ensures AllIn(s, DIGIT) <==> AllDigits(s)
  {
    assert forall i :: 0 <= i < |s| ==> (InClass(s[i], DIGIT) <==> IsDigit(s[i]));
  }

  lemma DigitsSplit(a: string, b: string)
    ensures AllDigits(a + b) <==> AllDigits(a) && AllDigits(b)
  {
    if AllDigits(a + b) {
      forall i | 0 <= i < |a| ensures IsDigit(a[i]) {
        assert (a + b)[i] == a[i];
      }
      forall i | 0 <= i < |b| ensures IsDigit(b[i]) {
        assert (a + b)[|a| + i] == b[i];
      }
    }
  }

  /** One character of a class, and nothing after it. */
  lemma LastChar(cls: CharClass, s: string)
    ensures Matches([Exactly(cls, 1)], s) <==> |s| == 1 && InClass(s[0], cls)
  {
    assert [Exactly(cls, 1)] == [Exactly(cls, 1)] + [];
    MatchesExactly(cls, 1, [], s);
    if |s| >= 1 {
      assert AllIn(s[..1], cls) <==> InClass(s[0], cls);
    }
  }

  /** The DNI validator accepts eight digits and an upper-case letter, with
      or without a hyphen between them. */
  lemma DniValidIff(s: string)
    ensures IsValidDni(s) <==> DniShape(s)
  {
    var tail := [Optional(OneOf("-")), Exactly(UPPER, 1)];
    var last := [Exactly(UPPER, 1)];
    assert DNI_PATTERN == [Exactly(DIGIT, DNI_DIGITS)] + tail;
    MatchesExactly(DIGIT, DNI_DIGITS, tail, s);
    if DNI_DIGITS <= |s| {
      var t := s[DNI_DIGITS..];
      assert tail == [Optional(OneOf("-"))] + last;
      MatchesOptional(OneOf("-"), last, t);
      LastChar(UPPER, t);
      if t != [] {
        LastChar(UPPER, t[1..]);
      }
      DigitsInClass(s[..DNI_DIGITS]);
    }
  }

  /** The K P Q S A B E H alternative of the control class adds nothing: the
      class is the upper-case letters and the digits. */
  lemma ControlClass(c: char)
    ensures InClass(c, CIF_CONTROL) <==> IsUpper(c) || IsDigit(c)
  {
    assert InClass(c, Either(DIGIT, UPPER)) <==> IsDigit(c) || IsUpper(c);
    if c in "KPQSABEH" {
      var i :| 0 <= i < 8 && "KPQSABEH"[i] == c;
      assert IsUpper("KPQSABEH"[i]);
    }
  }

  /** The CIF validator accepts exactly an upper-case letter, seven digits
      and an upper-case letter or digit. */
  lemma CifValidIff(s: string)
    ensures IsValidCif(s) <==> CifShape(s)
  {
    var p2 := [Exactly(DIGIT, 2), Exactly(DIGIT, 5), Exactly(CIF_CONTROL, 1)];
    var p3 := [Exactly(DIGIT, 5), Exactly(CIF_CONTROL, 1)];
    var p4 := [Exactly(CIF_CONTROL, 1)];
    assert CIF_PATTERN == [Exactly(UPPER, 1)] + p2;
    assert p2 == [Exactly(DIGIT, 2)] + p3;
    assert p3 == [Exactly(DIGIT, 5)] + p4;
    MatchesExactly(UPPER, 1, p2, s);
    if 1 <= |s| {
      assert AllIn(s[..1], UPPER) <==> IsUpper(s[0]);
      MatchesExactly(DIGIT, 2, p3, s[1..]);
      if 3 <= |s| {
        MatchesExactly(DIGIT, 5, p4, s[3..]);
        if 8 <= |s| {
          LastChar(CIF_CONTROL, s[8..]);
          if |s| == CIF_LENGTH {
            ControlClass(s[8]);
          }
          DigitsInClass(s[1..][..2]);
          DigitsInClass(s[3..][..5]);
          DigitsInClass(s[1..CIF_LENGTH - 1]);
          assert s[1..CIF_LENGTH - 1] == s[1..][..2] + s[3..][..5];
          assert s[1..][2..] == s[3..] && s[3..][5..] == s[8..];
          assert s[8..] != [] ==> s[8..][0] == s[8];
          DigitsSplit(s[1..][..2], s[3..][..5]);
        }
      }
    }
  }

  /** get: String.format("%s-%s", randomNumeric(8), randomAlphabetic(1)
      upper-cased); the two unseeded draws are `numeric` and `alpha`. The
      validator accepts the result. */
  method GetDni(numeric: string, alpha: string) returns (r: string)
    requires |numeric| == DNI_DIGITS && AllDigits(numeric)
    requires |alpha| == 1 && IsLetter(alpha[0])
    ensures |r| == DNI_DIGITS + 2 && r[..DNI_DIGITS] == numeric && r[DNI_DIGITS] == '-'
    ensures IsUpper(r[DNI_DIGITS + 1]) && Lower(r[DNI_DIGITS + 1..]) == Lower(alpha)
    ensures IsValidDni(r)
  {
    r := numeric + "-" + Upper(alpha);
    assert r[DNI_DIGITS + 1..] == Upper(alpha);
    LowerOfUpper(alpha);
    DniValidIff(r);
  }

  /** get: String.format("%s%s%s", randomAlphabetic(1) upper-cased,
      randomNumeric(7), randomAlphanumeric(1) upper-cased); the three
      unseeded draws are parameters. The validator accepts the result. */
  method GetCif(alpha: string, numeric: string, alnum: string) returns (r: string)
    requires |alpha| == 1 && IsLetter(alpha[0])
    requires |numeric| == CIF_DIGITS && AllDigits(numeric)
    requires |alnum| == 1 && (IsLetter(alnum[0]) || IsDigit(alnum[0]))
    ensures CifShape(r) && r[1..CIF_LENGTH - 1] == numeric
    ensures Lower(r[..1]) == Lower(alpha) && Lower(r[CIF_LENGTH - 1..]) == Lower(alnum)
    ensures IsValidCif(r)
  {
    r := Upper(alpha) + numeric + Upper(alnum);
    assert r[..1] == Upper(alpha) && r[CIF_LENGTH - 1..] == Upper(alnum);
    LowerOfUpper(alpha);
    LowerOfUpper(alnum);
    CifValidIff(r);
  }
}
