/** IBAN generation: the override properties (IBANProperties), the
    fill-if-absent provider (DefaultIBANProvider) and the value it returns
    (IBAN). The iban4j library is abstracted as an `IbanLibrary` value: which
    names are CountryCode constants, their display names, and what
    Iban.Builder.buildRandom answers for a request. */
module Iban {
  import opened Wrappers
  import opened Languages
  import opened Countries
  import opened Catalog
  import opened Random

  /** The static COUNTRIES table: language code to iban4j alpha-2 country code.
      Swedish maps to "SV" (El Salvador), as the table is written. */
  const COUNTRIES: map<LanguageCode, string> :=
    map[PL := "PL", EN := "GB", ES := "ES", FR := "FR", KA := "GE",
        IT := "IT", DE := "DE", SV := "SV", ZH := "TW"]

  const DEFAULT_COUNTRY: string := "PL"

  /** countryFromLanguage: the table entry whose language constant's name is
      exactly `lang`, otherwise "PL". */
  function CountryFromLanguage(lang: string): string {
    match FromName(lang)
    case Some(l) => if l in COUNTRIES then COUNTRIES[l] else DEFAULT_COUNTRY
    case None => DEFAULT_COUNTRY
  }

  /** The answer is the table entry of the language constant named exactly
      `lang`, or "PL" when no table entry has that name; either way it is one
      of the table's country codes. */
  lemma CountryFromLanguageSpec(lang: string)
    ensures forall l :: l in COUNTRIES && Name(l) == lang ==> CountryFromLanguage(lang) == COUNTRIES[l]
    ensures (forall l :: l in COUNTRIES ==> Name(l) != lang) ==> CountryFromLanguage(lang) == DEFAULT_COUNTRY
    ensures CountryFromLanguage(lang) in COUNTRIES.Values
  {
    assert COUNTRIES[PL] == DEFAULT_COUNTRY;
  }

  /** The table's notable answers: Swedish gives "SV", Chinese "TW", Swahili
      is not in the table, and the match is case-sensitive. */
  lemma CountryFromLanguageTable()
    ensures CountryFromLanguage("SV") == "SV"
    ensures CountryFromLanguage("ZH") == "TW"
    ensures CountryFromLanguage("EN") == "GB"
    ensures CountryFromLanguage("KA") == "GE"
    ensures CountryFromLanguage("SW") == DEFAULT_COUNTRY
    ensures CountryFromLanguage("en") == DEFAULT_COUNTRY
  {
    assert Name(SV) == "SV" && Name(ZH) == "ZH" && Name(EN) == "EN" && Name(KA) == "KA";
  }

  /** What is handed to Iban.Builder: the country and the optional parts. */
  datatype BuildRequest = BuildRequest(
    countryCode: string,
    bankCode: Option<string>,
    branchCode: Option<string>,
    nationalCheckDigit: Option<string>,
    accountNumber: Option<string>)

  /** The parts of a built iban4j Iban the provider reads. */
  datatype BuiltIban = BuiltIban(
    identificationNumber: Option<string>,
    checkDigit: string,
    accountType: Option<string>,
    bban: string,
    ownerAccountType: Option<string>,
    text: string)

  /** buildRandom's three outcomes: an Iban, UnsupportedCountryException, or
      IllegalFormatCodePointException with its message. */
  datatype BuildOutcome = Built(iban: BuiltIban) | Unsupported | IllegalFormat(message: string)

  /** The iban4j library as seen by the provider. */
  datatype IbanLibrary = IbanLibrary(
    isCountryCode: string -> bool,
    countryName: string -> string,
    build: BuildRequest -> BuildOutcome)

  /** The IBAN value object. */
  datatype IbanRecord = IbanRecord(
    accountNumber: Option<string>,
    identificationNumber: Option<string>,
    branchCode: Option<string>,
    checkDigit: string,
    accountType: Option<string>,
    bankCode: Option<string>,
    bban: string,
    country: string,
    nationalCheckDigit: Option<string>,
    ownerAccountType: Option<string>,
    ibanNumber: string)

  /** The builder request get() assembles: the account number is passed only
      when it is neither null nor empty. */
  function MakeRequest(code: string, accountNumber: Option<string>, bankCode: Option<string>,
                       branchCode: Option<string>, nationalCheckDigit: Option<string>): (req: BuildRequest)
    ensures req.countryCode == code && req.bankCode == bankCode
    ensures req.branchCode == branchCode && req.nationalCheckDigit == nationalCheckDigit
    ensures req.accountNumber.Some? <==> accountNumber.Some? && accountNumber.value != ""
    ensures req.accountNumber.Some? ==> req.accountNumber == accountNumber
  {
    var account := if accountNumber.Some? && accountNumber.value != "" then accountNumber else None;
    BuildRequest(code, bankCode, branchCode, nationalCheckDigit, account)
  }

  /** An IBANProperties.Property: each names one setter and its argument. */
  datatype IbanProperty =
    | BranchCode(branchCode: string)
    | NationalCheckDigit(nationalCheckDigit: string)
    | AccountNumber(accountNumber: string)
    | CountryProperty(country: string)
    | LanguageProperty(language: string)
    | BankCode(bankCode: string)

  /** The error CountryCode.valueOf raises for an unknown name. */
  function NoSuchCountryCode(name: string): Error {
    IllegalArgument("No enum constant org.iban4j.CountryCode." + name)
  }

  /** The five parts a provider holds; None is Java's null. */
  datatype IbanFields = IbanFields(
    countryCode: Option<string>,
    accountNumber: Option<string>,
    bankCode: Option<string>,
    branchCode: Option<string>,
    nationalCheckDigit: Option<string>)

  /** The names of the five parts. */
  datatype IbanField = CountryField | AccountField | BankField | BranchField | CheckDigitField

  function FieldOf(f: IbanFields, t: IbanField): Option<string> {
    match t
    case CountryField => f.countryCode
    case AccountField => f.accountNumber
    case BankField => f.bankCode
    case BranchField => f.branchCode
    case CheckDigitField => f.nationalCheckDigit
  }

  /** The part a property's setter writes. */
  function Target(p: IbanProperty): IbanField {
    match p
    case BranchCode(_) => BranchField
    case NationalCheckDigit(_) => CheckDigitField
    case AccountNumber(_) => AccountField
    case CountryProperty(_) => CountryField
    case LanguageProperty(_) => CountryField
    case BankCode(_) => BankField
  }

  /** The argument a property hands its setter; language(l) hands over the
      table's country for l. */
  function ValueOf(p: IbanProperty): string {
    match p
    case BranchCode(v) => v
    case NationalCheckDigit(v) => v
    case AccountNumber(v) => v
    case CountryProperty(v) => v
    case LanguageProperty(v) => CountryFromLanguage(v)
    case BankCode(v) => v
  }

  /** A property whose setter does not throw: only setCountry can, on a name
      that is not a CountryCode constant. */
  predicate Accepted(library: IbanLibrary, p: IbanProperty) {
    Target(p) == CountryField ==> library.isCountryCode(ValueOf(p))
  }

  /** Property.apply on the parts: the setter writes its own part and
      nothing else, or CountryCode.valueOf throws and nothing changes. */
  function Applied(library: IbanLibrary, f: IbanFields, p: IbanProperty): (r: Result<IbanFields>)
    ensures r.Success? <==> Accepted(library, p)
    ensures r.Failure? ==> r.error == NoSuchCountryCode(ValueOf(p))
    ensures r.Success? ==> FieldOf(r.value, Target(p)) == Some(ValueOf(p))
    ensures r.Success? ==> forall t :: t != Target(p) ==> FieldOf(r.value, t) == FieldOf(f, t)
  {
    match p
    case BranchCode(v) => Success(f.(branchCode := Some(v)))
    case NationalCheckDigit(v) => Success(f.(nationalCheckDigit := Some(v)))
    case AccountNumber(v) => Success(f.(accountNumber := Some(v)))
    case BankCode(v) => Success(f.(bankCode := Some(v)))
    case _ =>
      if library.isCountryCode(ValueOf(p)) then Success(f.(countryCode := Some(ValueOf(p))))
      else Failure(NoSuchCountryCode(ValueOf(p)))
  }

  /** The parts after a list of properties, and whether construction got
      through it. */
  datatype Applying = Applying(fields: IbanFields, outcome: Outcome)

  /** The constructor's loop on the parts: the properties in order, the
      first one that throws ending it with the parts as they were. */
  function AppliedAll(library: IbanLibrary, f: IbanFields, ps: seq<IbanProperty>): Applying
    decreases |ps|
  {
    if ps == [] then Applying(f, Pass)
    else
      var r := AppliedAll(library, f, ps[..|ps| - 1]);
      if r.outcome.Fail? then r
      else match Applied(library, r.fields, ps[|ps| - 1])
        case Success(g) => Applying(g, Pass)
        case Failure(e) => Applying(r.fields, Fail(e))
  }

  /** Once a prefix has failed, nothing after it is applied. */
  lemma {:induction false} FailureSticks(library: IbanLibrary, f: IbanFields, ps: seq<IbanProperty>,
                                         k: nat, m: nat)
    requires k <= m <= |ps| && AppliedAll(library, f, ps[..k]).outcome.Fail?
    ensures AppliedAll(library, f, ps[..m]) == AppliedAll(library, f, ps[..k])
    decreases m
  {
    if m > k {
      FailureSticks(library, f, ps, k, m - 1);
      assert ps[..m][..m - 1] == ps[..m - 1];
    }
  }

  /** Construction gets through a list exactly when every property in it is
      accepted. */
  lemma {:induction false} AppliedAllPasses(library: IbanLibrary, f: IbanFields, ps: seq<IbanProperty>)
    ensures AppliedAll(library, f, ps).outcome.Pass? <==>
              forall i :: 0 <= i < |ps| ==> Accepted(library, ps[i])
    decreases |ps|
  {
    if ps != [] {
      var init := ps[..|ps| - 1];
      AppliedAllPasses(library, f, init);
      assert forall i :: 0 <= i < |init| ==> init[i] == ps[i];
    }
  }

  /** The first property that is not accepted stops construction with its
      setCountry error, every earlier property applied and no later one. */
  lemma FirstRefusalStops(library: IbanLibrary, f: IbanFields, ps: seq<IbanProperty>, k: nat)
    requires k < |ps| && !Accepted(library, ps[k])
    requires forall j :: 0 <= j < k ==> Accepted(library, ps[j])
    ensures AppliedAll(library, f, ps).outcome == Fail(NoSuchCountryCode(ValueOf(ps[k])))
    ensures AppliedAll(library, f, ps).fields == AppliedAll(library, f, ps[..k]).fields
    ensures AppliedAll(library, f, ps[..k]).outcome.Pass?
  {
    var pre := ps[..k];
    assert forall j :: 0 <= j < |pre| ==> pre[j] == ps[j];
    AppliedAllPasses(library, f, pre);
    assert ps[..k + 1][..k] == pre && ps[..k + 1][k] == ps[k];
    FailureSticks(library, f, ps, k + 1, |ps|);
    assert ps[..|ps|] == ps;
  }

  /** A part no property writes keeps its value, whether construction gets
      through or not. */
  lemma {:induction false} UntouchedKept(library: IbanLibrary, f: IbanFields, ps: seq<IbanProperty>,
                                         t: IbanField)
    requires forall j :: 0 <= j < |ps| ==> Target(ps[j]) != t
    ensures FieldOf(AppliedAll(library, f, ps).fields, t) == FieldOf(f, t)
    decreases |ps|
  {
    if ps != [] {
      var init := ps[..|ps| - 1];
      assert forall j :: 0 <= j < |init| ==> init[j] == ps[j];
      UntouchedKept(library, f, init, t);
    }
  }

  /** When construction gets through, each part holds the argument of the
      last property that writes it. */
  lemma {:induction false} LastSetWins(library: IbanLibrary, f: IbanFields, ps: seq<IbanProperty>,
                                       i: nat)
    requires i < |ps| && AppliedAll(library, f, ps).outcome.Pass?
    requires forall j :: i < j < |ps| ==> Target(ps[j]) != Target(ps[i])
    ensures FieldOf(AppliedAll(library, f, ps).fields, Target(ps[i])) == Some(ValueOf(ps[i]))
    decreases |ps|
  {
    var init := ps[..|ps| - 1];
    var r := AppliedAll(library, f, init);
    assert r.outcome.Pass?;
    if i < |ps| - 1 {
      assert forall j :: 0 <= j < |init| ==> init[j] == ps[j];
      LastSetWins(library, f, init, i);
    }
  }

  /** DefaultIBANProvider: a draft of the IBAN parts, filled where absent. */
  class IbanProvider {
    const rng: RandomSource
    const dataMaster: DataMaster
    const library: IbanLibrary
    var countryCode: Option<string>
    var accountNumber: Option<string>
    var bankCode: Option<string>
    var branchCode: Option<string>
    var nationalCheckDigit: Option<string>

    /** The provider's five parts. */
    function Fields(): IbanFields
      reads this
    {
      IbanFields(countryCode, accountNumber, bankCode, branchCode, nationalCheckDigit)
    }

    /** The constructor before its properties are applied (see ApplyAll). */
    constructor(rng: RandomSource, dataMaster: DataMaster, library: IbanLibrary)
      ensures this.rng == rng && this.dataMaster == dataMaster && this.library == library
      ensures countryCode == None && accountNumber == None && bankCode == None
      ensures branchCode == None && nationalCheckDigit == None
    {
      this.rng := rng;
      this.dataMaster := dataMaster;
      this.library := library;
      countryCode := None;
      accountNumber := None;
      bankCode := None;
      branchCode := None;
      nationalCheckDigit := None;
    }

    method SetNationalCheckDigit(value: string)
      modifies this
      ensures nationalCheckDigit == Some(value)
      ensures countryCode == old(countryCode) && accountNumber == old(accountNumber)
      ensures bankCode == old(bankCode) && branchCode == old(branchCode)
    {
      nationalCheckDigit := Some(value);
    }

    method SetBranchCode(value: string)
      modifies this
      ensures branchCode == Some(value)
      ensures countryCode == old(countryCode) && accountNumber == old(accountNumber)
      ensures bankCode == old(bankCode) && nationalCheckDigit == old(nationalCheckDigit)
    {
      branchCode := Some(value);
    }

    /** setCountry: CountryCode.valueOf refuses a name that is not a constant,
        and then nothing changes. */
    method SetCountry(value: string) returns (o: Outcome)
      modifies this
      ensures library.isCountryCode(value) ==> o == Pass && countryCode == Some(value)
      ensures !library.isCountryCode(value) ==>
                o == Fail(NoSuchCountryCode(value)) && countryCode == old(countryCode)
      ensures accountNumber == old(accountNumber) && bankCode == old(bankCode)
      ensures branchCode == old(branchCode) && nationalCheckDigit == old(nationalCheckDigit)
    {
      if !library.isCountryCode(value) {
        return Fail(NoSuchCountryCode(value));
      }
      countryCode := Some(value);
      o := Pass;
    }

    method SetAccountNumber(value: string)
      modifies this
      ensures accountNumber == Some(value)
      ensures countryCode == old(countryCode) && bankCode == old(bankCode)
      ensures branchCode == old(branchCode) && nationalCheckDigit == old(nationalCheckDigit)
    {
      accountNumber := Some(value);
    }

    method SetBankCode(value: string)
      modifies this
      ensures bankCode == Some(value)
      ensures countryCode == old(countryCode) && accountNumber == old(accountNumber)
      ensures branchCode == old(branchCode) && nationalCheckDigit == old(nationalCheckDigit)
    {
      bankCode := Some(value);
    }

    /** Property.apply: one setter call with the property's argument;
        `language(l)` sets the country the table gives for `l`. */
    method Apply(p: IbanProperty) returns (o: Outcome)
      modifies this
      ensures Applied(library, old(Fields()), p).Success? ==>
                o == Pass && Fields() == Applied(library, old(Fields()), p).value
      ensures Applied(library, old(Fields()), p).Failure? ==>
                o == Fail(Applied(library, old(Fields()), p).error) && Fields() == old(Fields())
    {
      match p
      case BranchCode(v) => SetBranchCode(v); o := Pass;
      case NationalCheckDigit(v) => SetNationalCheckDigit(v); o := Pass;
      case AccountNumber(v) => SetAccountNumber(v); o := Pass;
      case CountryProperty(v) => o := SetCountry(v);
      case LanguageProperty(v) => o := SetCountry(CountryFromLanguage(v));
      case BankCode(v) => SetBankCode(v); o := Pass;
    }

    /** The constructor's loop: the properties are applied in order; the
        first failing one stops construction. */
    method ApplyAll(properties: seq<IbanProperty>) returns (o: Outcome)
      modifies this
      ensures Applying(Fields(), o) == AppliedAll(library, old(Fields()), properties)
    {
      var i := 0;
      while i < |properties|
        invariant 0 <= i <= |properties|
        invariant AppliedAll(library, old(Fields()), properties[..i]) == Applying(Fields(), Pass)
      {
        assert properties[..i + 1][..i] == properties[..i] && properties[..i + 1][i] == properties[i];
        var step := Apply(properties[i]);
        if step.Fail? {
          FailureSticks(library, old(Fields()), properties, i + 1, |properties|);
          assert properties[..|properties|] == properties;
          return step;
        }
        i := i + 1;
      }
      assert properties[..i] == properties;
      o := Pass;
    }

    /** The randomElement(findCountryForLanguage(language)) draw; a null
        language gives the empty list. */
    method DrawCountry(language: Option<LanguageCode>) returns (r: Result<Country>)
      modifies rng
      ensures language.None? ==> r == Failure(BadRange)
      ensures language.Some? ==> r.Success? && language.value in SpokenLanguages(r.value)
    {
      var countries := if language.Some? then FindCountryForLanguage(language.value) else [];
      if language.Some? {
        FindCountryForLanguageSpec(language.value);
        FindNeverEmpty(language.value);
      }
      r := rng.RandomElement(countries);
    }

    /** fillCountryCode: a preset country is kept; otherwise a country whose
        languages include the catalog language is drawn. A null language
        matches no country, and drawing from the empty list fails. */
    method FillCountryCode() returns (o: Outcome)
      modifies this, rng
      ensures old(countryCode).Some? ==>
                o == Pass && countryCode == old(countryCode) && rng.position == old(rng.position)
      ensures old(countryCode).None? && GetLanguage(dataMaster.dataSource).Failure? ==>
                o == Fail(GetLanguage(dataMaster.dataSource).error)
      ensures old(countryCode).None? && GetLanguage(dataMaster.dataSource) == Success(None) ==>
                o == Fail(BadRange)
      ensures old(countryCode).None? && o.Pass? ==>
                GetLanguage(dataMaster.dataSource).Success?
                && GetLanguage(dataMaster.dataSource).value.Some?
                && countryCode.Some?
                && exists c :: countryCode.value == Code(c)
                               && GetLanguage(dataMaster.dataSource).value.value in SpokenLanguages(c)
      ensures o.Fail? ==> countryCode == old(countryCode)
      ensures accountNumber == old(accountNumber) && bankCode == old(bankCode)
      ensures branchCode == old(branchCode) && nationalCheckDigit == old(nationalCheckDigit)
    {
      if countryCode.Some? {
        return Pass;
      }
      var language := GetLanguage(dataMaster.dataSource);
      if language.Failure? {
        return Fail(language.error);
      }
      var country := DrawCountry(language.value);
      if country.Failure? {
        return Fail(country.error);
      }
      if !library.isCountryCode(Code(country.value)) {
        return Fail(NoSuchCountryCode(Code(country.value)));
      }
      countryCode := Some(Code(country.value));
      o := Pass;
    }

    /** get: fill the country, ask the library for a random IBAN with the
        draft's parts, and echo those parts in the result. An unsupported
        country gives null; a format error becomes an IllegalArgumentException. */
    method Get() returns (r: Result<Option<IbanRecord>>)
      modifies this, rng
      ensures accountNumber == old(accountNumber) && bankCode == old(bankCode)
      ensures branchCode == old(branchCode) && nationalCheckDigit == old(nationalCheckDigit)
      ensures old(countryCode).Some? ==> countryCode == old(countryCode)
      ensures r.Success? ==> countryCode.Some?
      ensures r.Success? ==>
                var outcome := library.build(MakeRequest(countryCode.value, accountNumber, bankCode,
                                                         branchCode, nationalCheckDigit));
                (r.value.None? <==> outcome.Unsupported?)
                && (r.value.Some? ==> outcome.Built?
                                      && r.value.value == Assemble(outcome.iban, countryCode.value))
      ensures countryCode.Some? ==>
                var outcome := library.build(MakeRequest(countryCode.value, accountNumber, bankCode,
                                                         branchCode, nationalCheckDigit));
                outcome.IllegalFormat? ==> r == Failure(IllegalArgument("Invalid iban " + outcome.message))
    {
      var filled := FillCountryCode();
      if filled.Fail? {
        return Failure(filled.error);
      }
      var request := MakeRequest(countryCode.value, accountNumber, bankCode, branchCode, nationalCheckDigit);
      match library.build(request)
      case Built(iban) => r := Success(Some(Assemble(iban, countryCode.value)));
      case Unsupported => r := Success(None);
      case IllegalFormat(message) => r := Failure(IllegalArgument("Invalid iban " + message));
    }

    /** The IBAN value get() builds from the library's answer and the draft. */
    function Assemble(iban: BuiltIban, code: string): (b: IbanRecord)
      reads this
      ensures b.accountNumber == accountNumber && b.branchCode == branchCode
      ensures b.bankCode == bankCode && b.nationalCheckDigit == nationalCheckDigit
      ensures b.country == library.countryName(code)
      ensures b.ibanNumber == iban.text && b.bban == iban.bban && b.checkDigit == iban.checkDigit
    {
      IbanRecord(accountNumber, iban.identificationNumber, branchCode, iban.checkDigit,
                 iban.accountType, bankCode, iban.bban, library.countryName(code),
                 nationalCheckDigit, iban.ownerAccountType, iban.text)
    }
  }
}
