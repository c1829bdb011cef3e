/** Country: the countries a person's nationality and a bank account's
    country are drawn from, with their ISO 3166 codes and languages. */
module Countries {
  import opened Languages

  datatype Country =
    | Poland | UnitedKingdom | Australia | USA | Canada | Spain | France
    | Georgia | Italy | Germany | Sweden | Uganda | China

  /** The number of constants. */
  const COUNT: nat := 13

  /** The constant declared at position `i` (Country.values()[i]). */
  function Declared(i: nat): (c: Country)
    requires i < COUNT
    ensures Ordinal(c) == i
  {
    if i == 0 then Poland else if i == 1 then UnitedKingdom else if i == 2 then Australia
    else if i == 3 then USA else if i == 4 then Canada else if i == 5 then Spain
    else if i == 6 then France else if i == 7 then Georgia else if i == 8 then Italy
    else if i == 9 then Germany else if i == 10 then Sweden else if i == 11 then Uganda
    else China
  }

  /** The declaration position of a constant (its ordinal). */
  function Ordinal(c: Country): (i: nat)
    ensures i < COUNT
  {
    match c
    case Poland => 0 case UnitedKingdom => 1 case Australia => 2 case USA => 3
    case Canada => 4 case Spain => 5 case France => 6 case Georgia => 7
    case Italy => 8 case Germany => 9 case Sweden => 10 case Uganda => 11
    case China => 12
  }

  lemma DeclaredOrdinal(c: Country)
    ensures Declared(Ordinal(c)) == c
  {
  }

  /** getCode: the two-letter ISO 3166 code. */
  function Code(c: Country): (code: string)
    ensures |code| == 2
  {
    match c
    case Poland => "PL" case UnitedKingdom => "GB" case Australia => "AU"
    case USA => "US" case Canada => "CA" case Spain => "ES" case France => "FR"
    case Georgia => "GE" case Italy => "IT" case Germany => "DE" case Sweden => "SE"
    case Uganda => "UG" case China => "CN"
  }

  /** The languages spoken in a country, as the enum table lists them. */
  function SpokenLanguages(c: Country): seq<LanguageCode> {
    match c
    case Poland => [PL] case UnitedKingdom => [EN] case Australia => [EN]
    case USA => [EN] case Canada => [EN, FR] case Spain => [ES] case France => [FR]
    case Georgia => [KA] case Italy => [IT] case Germany => [DE] case Sweden => [SV]
    case Uganda => [SW] case China => [ZH]
  }

  /** The stream filter over the constants from position `i` on, keeping
      those that speak `l`. */
  function SpeakingFrom(i: nat, l: LanguageCode): seq<Country>
    requires i <= COUNT
    decreases COUNT - i
  {
    if i == COUNT then []
    else (if l in SpokenLanguages(Declared(i)) then [Declared(i)] else []) + SpeakingFrom(i + 1, l)
  }

  /** findCountryForLanguage: Country.values() filtered by language. */
  function FindCountryForLanguage(l: LanguageCode): seq<Country> {
    SpeakingFrom(0, l)
  }

  /** The filter from position `i` keeps exactly the constants at or after
      `i` that speak the language. */
  lemma {:induction false} SpeakingFromMembers(i: nat, l: LanguageCode)
    requires i <= COUNT
    ensures forall c :: c in SpeakingFrom(i, l) <==> i <= Ordinal(c) && l in SpokenLanguages(c)
    decreases COUNT - i
  {
    if i < COUNT {
      SpeakingFromMembers(i + 1, l);
      var head := if l in SpokenLanguages(Declared(i)) then [Declared(i)] else [];
      assert SpeakingFrom(i, l) == head + SpeakingFrom(i + 1, l);
      forall c
        ensures c in SpeakingFrom(i, l) <==> i <= Ordinal(c) && l in SpokenLanguages(c)
      {
        DeclaredOrdinal(c);
        if Ordinal(c) == i {
          assert c == Declared(i);
        }
      }
    }
  }

  /** Countries listed in strictly increasing declaration order. */
  predicate InDeclarationOrder(r: seq<Country>) {
    forall a, b :: 0 <= a < b < |r| ==> Ordinal(r[a]) < Ordinal(r[b])
  }

  lemma OrderedCons(d: Country, rest: seq<Country>)
    requires InDeclarationOrder(rest)
    requires forall c :: c in rest ==> Ordinal(d) < Ordinal(c)
    ensures InDeclarationOrder([d] + rest)
  {
    var r := [d] + rest;
    forall a, b | 0 <= a < b < |r|
      ensures Ordinal(r[a]) < Ordinal(r[b])
    {
      assert r[b] == rest[b - 1] && rest[b - 1] in rest;
      if a > 0 {
        assert r[a] == rest[a - 1];
      }
    }
  }

  /** The filter from position `i` lists constants in declaration order. */
  lemma {:induction false} SpeakingFromOrdered(i: nat, l: LanguageCode)
    requires i <= COUNT
    ensures InDeclarationOrder(SpeakingFrom(i, l))
    decreases COUNT - i
  {
    if i < COUNT {
      SpeakingFromOrdered(i + 1, l);
      SpeakingFromMembers(i + 1, l);
      var rest := SpeakingFrom(i + 1, l);
      var d := Declared(i);
      if l in SpokenLanguages(d) {
        OrderedCons(d, rest);
        assert SpeakingFrom(i, l) == [d] + rest;
      } else {
        assert SpeakingFrom(i, l) == rest;
      }
    }
  }

  /** The result holds exactly the countries speaking the language, each once,
      in declaration order. */
  lemma FindCountryForLanguageSpec(l: LanguageCode)
    ensures forall c :: c in FindCountryForLanguage(l) <==> l in SpokenLanguages(c)
    ensures InDeclarationOrder(FindCountryForLanguage(l))
  {
    var r := FindCountryForLanguage(l);
    assert r == SpeakingFrom(0, l);
    SpeakingFromMembers(0, l);
    SpeakingFromOrdered(0, l);
    forall c ensures c in r <==> l in SpokenLanguages(c) {
      assert 0 <= Ordinal(c);
    }
  }

  /** The English-speaking countries, in declaration order. */
  lemma FindEnglish()
    ensures FindCountryForLanguage(EN) == [UnitedKingdom, Australia, USA, Canada]
  {
  }

  /** Canada is found for French as well as for English. */
  lemma FindFrench()
    ensures FindCountryForLanguage(FR) == [Canada, France]
  {
  }

  lemma FindSwahili()
    ensures FindCountryForLanguage(SW) == [Uganda]
  {
  }

  lemma FindChinese()
    ensures FindCountryForLanguage(ZH) == [China]
  {
  }

  /** Every language code is spoken somewhere, so the list is never empty. */
  lemma FindNeverEmpty(l: LanguageCode)
    ensures FindCountryForLanguage(l) != []
  {
    var c := match l
      case DE => Germany case EN => UnitedKingdom case ES => Spain case FR => France
      case IT => Italy case KA => Georgia case PL => Poland case SV => Sweden
      case SW => Uganda case ZH => China;
    FindCountryForLanguageSpec(l);
    assert l in SpokenLanguages(c);
  }
}
