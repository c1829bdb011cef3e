/** DefaultPersonProvider: the provider fields the overrides preset, and
    get(), which fills every field still missing in a fixed order and hands
    out a Person. */
module PersonProviders {
  import opened Wrappers
  import opened Chars
  import opened Random
  import opened Catalog
  import opened Calendar
  import opened Sexes
  import opened Languages
  import opened Countries
  import opened Addresses
  import Companies
  import opened TextUtils
  import opened Emails
  import DateProducer
  import opened Persons
  import opened PersonProperties
  import opened BirthWindows

  /** What generateProfession and generateMaritalStatus give the young. */
  const UNKNOWN: string := "unknown"
  /** The oldest age that still gets UNKNOWN. */
  const UNDERAGE_LIMIT: int := 19

  /** A possibly null string as Java writes it in a concatenation. */
  function JavaText(s: Option<string>): string {
    s.GetOr("null")
  }

  /** The coin trueOrFalse shows when it draws at position k. */
  function Heads(rng: RandomSource, k: nat): bool {
    rng.draws(k) % 2 == 0
  }

  /** The text generateUsername lower-cases: the first name's initial and
      the last name when the coin shows true, the first name and the last
      name's initial otherwise; charAt(0) on a null name throws
      NullPointerException and on an empty one an index error. */
  function UsernameBase(initialFirst: bool, firstName: Option<string>, lastName: Option<string>): (r: Result<string>)
    ensures initialFirst ==>
              (firstName.None? ==> r == Failure(NullPointer))
              && (firstName == Some("") ==> r == Failure(IndexOutOfBounds))
              && (r.Success? <==> firstName.Some? && firstName.value != "")
    ensures !initialFirst ==>
              (lastName.None? ==> r == Failure(NullPointer))
              && (lastName == Some("") ==> r == Failure(IndexOutOfBounds))
              && (r.Success? <==> lastName.Some? && lastName.value != "")
  {
    if initialFirst then
      match firstName
      case None => Failure(NullPointer)
      case Some(f) => if f == "" then Failure(IndexOutOfBounds) else Success([f[0]] + JavaText(lastName))
    else
      match lastName
      case None => Failure(NullPointer)
      case Some(l) => if l == "" then Failure(IndexOutOfBounds) else Success(JavaText(firstName) + [l[0]])
  }

  /** With both names set, the base is one initial longer than the whole
      name it keeps, and keeps it at its own end of the text. */
  lemma UsernameBaseShape(initialFirst: bool, first: string, last: string)
    requires first != "" && last != ""
    ensures var r := UsernameBase(initialFirst, Some(first), Some(last));
            r.Success?
            && (initialFirst ==> |r.value| == 1 + |last| && r.value[0] == first[0] && r.value[1..] == last)
            && (!initialFirst ==> |r.value| == |first| + 1 && r.value[..|first|] == first
                                  && r.value[|first|] == last[0])
  {
    var r := UsernameBase(initialFirst, Some(first), Some(last));
    if initialFirst {
      assert r.value == [first[0]] + last;
    } else {
      assert r.value == first + [last[0]];
    }
  }

  /** lowerCase(stripAccents(base)): no capital letter is left. */
  function Username(strip: string -> string, base: string): (r: string)
    ensures forall x :: x in r ==> !IsUpper(x)
  {
    Lower(strip(base))
  }

  /** The countries generateNationality picks from: those speaking the
      catalog's language, none when the language is no LanguageCode. */
  function NationalityCandidates(language: Option<LanguageCode>): seq<Country> {
    match language
    case None => []
    case Some(l) => FindCountryForLanguage(l)
  }

  /** The nationality generateNationality may give for the language. */
  predicate NationalityFits(language: Option<LanguageCode>, c: Country) {
    var candidates := NationalityCandidates(language);
    if candidates == [] then c == Uganda else c in candidates
  }

  /** Without a language the nationality is Uganda; with one it is a
      country that speaks it. */
  lemma NationalityFitsSpec(language: Option<LanguageCode>, c: Country)
    ensures NationalityFits(language, c) <==>
              if language.None? then c == Uganda else language.value in SpokenLanguages(c)
  {
    if language.Some? {
      FindNeverEmpty(language.value);
      FindCountryForLanguageSpec(language.value);
    }
  }

  /** generateParentsTogether's rule: unknown when either parent's status
      is unknown, not together when either has died, the coin otherwise. */
  function ParentsTogether(motherAlive: char, fatherAlive: char, coin: bool): char {
    if motherAlive == 'U' || fatherAlive == 'U' then 'U'
    else if motherAlive == 'D' || fatherAlive == 'D' then 'N'
    else if coin then 'Y' else 'N'
  }

  /** The rule ignores which parent is which, answers 'U', 'N' or 'Y',
      answers 'U' exactly when a status is unknown, and answers 'Y' only for
      two parents neither unknown nor dead, where the coin decides. */
  lemma ParentsTogetherRule(motherAlive: char, fatherAlive: char, coin: bool)
    ensures var r := ParentsTogether(motherAlive, fatherAlive, coin);
            r == ParentsTogether(fatherAlive, motherAlive, coin)
            && (r == 'U' || r == 'N' || r == 'Y')
            && (r == 'U' <==> motherAlive == 'U' || fatherAlive == 'U')
            && (r == 'Y' <==> coin && motherAlive !in "UD" && fatherAlive !in "UD")
  {
  }

  /** An Option field that held a value still holds it. */
  predicate Kept<T(==)>(before: Option<T>, after: Option<T>) {
    before.Some? ==> after == before
  }

  /** Every field a generateX step fills only when it is null (or '\0')
      keeps a value it already had; the age, which a birth date recomputes,
      and the nationality, blood type and parents' statuses, which are
      drawn every time, are not among them. */
  predicate KeepsPresets(a: Draft, b: Draft) {
    Kept(a.sex, b.sex) && Kept(a.telephoneNumberFormat, b.telephoneNumberFormat)
    && Kept(a.mobileTelephoneNumberFormat, b.mobileTelephoneNumberFormat)
    && Kept(a.dateOfBirth, b.dateOfBirth) && Kept(a.company, b.company)
    && Kept(a.address, b.address) && Kept(a.firstName, b.firstName)
    && Kept(a.middleName, b.middleName) && Kept(a.lastName, b.lastName)
    && Kept(a.email, b.email) && Kept(a.username, b.username)
    && Kept(a.telephoneNumber, b.telephoneNumber)
    && Kept(a.mobileTelephoneNumber, b.mobileTelephoneNumber)
    && Kept(a.password, b.password) && Kept(a.companyEmail, b.companyEmail)
    && Kept(a.nationalIdentityCardNumber, b.nationalIdentityCardNumber)
    && Kept(a.nationalIdentificationNumber, b.nationalIdentificationNumber)
    && Kept(a.passportNumber, b.passportNumber) && Kept(a.profession, b.profession)
    && Kept(a.martialStatus, b.martialStatus) && Kept(a.nameOfMother, b.nameOfMother)
    && Kept(a.nameOfFather, b.nameOfFather)
    && (a.parentsTogether != '\0' ==> b.parentsTogether == a.parentsTogether)
    && (a.hasInsurance != '\0' ==> b.hasInsurance == a.hasInsurance)
  }

  /** Every field the Person needs is set. */
  predicate Complete(d: Draft) {
    d.sex.Some? && d.age.Some? && d.dateOfBirth.Some? && d.company.Some? && d.address.Some?
    && d.firstName.Some? && d.middleName.Some? && d.lastName.Some? && d.email.Some?
    && d.username.Some? && d.telephoneNumber.Some? && d.mobileTelephoneNumber.Some?
    && d.password.Some? && d.companyEmail.Some? && d.nationalIdentityCardNumber.Some?
    && d.nationalIdentificationNumber.Some? && d.passportNumber.Some? && d.nationality.Some?
    && d.profession.Some? && d.martialStatus.Some? && d.bloodType.Some?
    && d.nameOfMother.Some? && d.nameOfFather.Some?
  }

  /** The Person get() builds from the fields. */
  function Assembled(d: Draft): Person
    requires Complete(d)
  {
    Person(d.firstName.value, d.middleName.value, d.lastName.value, d.address.value,
           d.email.value, d.username.value, d.password.value, d.sex.value,
           d.telephoneNumber.value, d.mobileTelephoneNumber.value, d.dateOfBirth.value,
           d.age, d.nationalIdentityCardNumber.value, d.nationalIdentificationNumber.value,
           d.passportNumber.value, d.company.value, d.companyEmail.value,
           d.nationality.value, d.profession.value, d.martialStatus.value,
           d.bloodType.value, d.nameOfMother.value, d.nameOfFather.value,
           d.parentsTogether, d.hasInsurance)
  }

  /** KeepsPresets chains over consecutive steps. */
  lemma KeepsPresetsTransitive(a: Draft, b: Draft, c: Draft)
    requires KeepsPresets(a, b) && KeepsPresets(b, c)
    ensures KeepsPresets(a, c)
  {
  }

  /** getValuesOfType(dataKey, typeName, String.class): a draw from the
      typed list, cast to a string. */
  method DrawTypedString(dataMaster: DataMaster, dataKey: string, typeName: string) returns (r: Result<string>)
    modifies dataMaster.rng
    ensures TypedList(dataMaster.dataSource, dataKey, typeName).Failure? ==> r.Failure?
    ensures TypedList(dataMaster.dataSource, dataKey, typeName) == Success([]) ==> r.Failure?
    ensures r.Success? ==> TypedListed(dataMaster.dataSource, dataKey, typeName, r.value)
  {
    var drawn := dataMaster.GetValuesOfType(dataKey, typeName);
    if drawn.Failure? {
      return Failure(drawn.error);
    }
    r := AsString(drawn.value);
  }

  /** The format (the preset one, or one drawn from the catalog) and the
      number generateTelephoneNumber makes from it. */
  method MakeTelephoneNumber(rng: RandomSource, dataMaster: DataMaster, format: Option<string>)
    returns (r: Result<(string, string)>)
    modifies rng, dataMaster.rng
    ensures format.Some? ==> r.Success? && r.value.0 == format.value
    ensures format.None? && GetStringList(dataMaster.dataSource, TELEPHONE_NUMBER_FORMATS).Failure? ==>
              r.Failure?
    ensures format.None? && r.Success? ==> Listed(dataMaster.dataSource, TELEPHONE_NUMBER_FORMATS, r.value.0)
    ensures r.Success? ==> Numerified(r.value.0, r.value.1)
  {
    var mask: string;
    if format.Some? {
      mask := format.value;
    } else {
      var drawn := dataMaster.GetRandomValue(TELEPHONE_NUMBER_FORMATS);
      if drawn.Failure? {
        return Failure(drawn.error);
      }
      mask := drawn.value;
    }
    var number := rng.Numerify(mask);
    r := Success((mask, number));
  }

  /** The draw of generateDateOfBirth: a date from the window of dates
      exactly `age` whole years before today. */
  method DrawBirth(rng: RandomSource, today: Date, age: int) returns (d: Date)
    requires ValidDate(today)
    modifies rng
    ensures ValidDate(d) && InWindow(EarliestBirth(today, age), LatestBirth(today, age), d)
    ensures age >= 0 ==> YearsBetween(d, today) == age
  {
    var latest := LatestBirth(today, age);
    var earliest := EarliestBirth(today, age);
    BirthWindowNonEmpty(today, age);
    var drawn := DateProducer.RandomDateBetweenDates(rng, earliest, latest);
    d := drawn.value;
    if age >= 0 {
      AgeOfBirthInWindow(today, age, d);
    }
  }

  /** The values the provider takes from outside the seeded draws:
      RandomStringUtils' password, and the locale's identity card number,
      passport number, address and (through the company factory) VAT
      identification number. */
  datatype Supplied = Supplied(password: string, nationalIdentityCardNumber: string,
                               passportNumber: string, address: Address,
                               vatIdentificationNumber: string)

  class DefaultPersonProvider {
    var sex: Option<Sex>
    var telephoneNumberFormat: Option<string>
    var mobileTelephoneNumberFormat: Option<string>
    var age: Option<int>
    var dateOfBirth: Option<Date>
    var company: Option<Companies.Company>
    var address: Option<Address>
    var firstName: Option<string>
    var middleName: Option<string>
    var lastName: Option<string>
    var email: Option<string>
    var username: Option<string>
    var telephoneNumber: Option<string>
    var mobileTelephoneNumber: Option<string>
    var password: Option<string>
    var companyEmail: Option<string>
    var nationalIdentityCardNumber: Option<string>
    var nationalIdentificationNumber: Option<string>
    var passportNumber: Option<string>
    var nationality: Option<Country>
    var profession: Option<string>
    var martialStatus: Option<string>
    var bloodType: Option<string>
    var nameOfMother: Option<string>
    var motherAlive: char
    var nameOfFather: Option<string>
    var fatherAlive: char
    var parentsTogether: char
    var hasInsurance: char

    /** BaseProducer's random source (DateProducer draws from it too). */
    const rng: RandomSource
    const dataMaster: DataMaster
    /** StringUtils.stripAccents. */
    const strip: string -> string
    /** The catalog key the parents' statuses are drawn under. */
    const parentsAliveKey: string
    /** The locale's national identification number for a birth date and a sex. */
    const nin: (Option<Date>, Option<Sex>) -> string
    /** LocalDateTime.now() and TimeProvider.getCurrentDate(). */
    const now: DateTime
    const today: Date

    ghost function Fields(): Draft
      reads this
    {
      Draft(sex, telephoneNumberFormat, mobileTelephoneNumberFormat, age, dateOfBirth,
            company, address, firstName, middleName, lastName, email, username,
            telephoneNumber, mobileTelephoneNumber, password, companyEmail,
            nationalIdentityCardNumber, nationalIdentificationNumber, passportNumber,
            nationality, profession, martialStatus, bloodType, nameOfMother, motherAlive,
            nameOfFather, fatherAlive, parentsTogether, hasInsurance)
    }

    /** The injected collaborators, every field unset. */
    constructor(rng: RandomSource, dataMaster: DataMaster, strip: string -> string,
                parentsAliveKey: string, nin: (Option<Date>, Option<Sex>) -> string,
                now: DateTime, today: Date)
      ensures this.rng == rng && this.dataMaster == dataMaster && this.strip == strip
      ensures this.parentsAliveKey == parentsAliveKey && this.nin == nin
      ensures this.now == now && this.today == today
      ensures Fields() == EMPTY_DRAFT
    {
      this.rng := rng;
      this.dataMaster := dataMaster;
      this.strip := strip;
      this.parentsAliveKey := parentsAliveKey;
      this.nin := nin;
      this.now := now;
      this.today := today;
      sex, telephoneNumberFormat, mobileTelephoneNumberFormat := None, None, None;
      age, dateOfBirth, company, address := None, None, None, None;
      firstName, middleName, lastName, email, username := None, None, None, None, None;
      telephoneNumber, mobileTelephoneNumber, password, companyEmail := None, None, None, None;
      nationalIdentityCardNumber, nationalIdentificationNumber := None, None;
      passportNumber, nationality, profession, martialStatus := None, None, None, None;
      bloodType, nameOfMother, nameOfFather := None, None, None;
      motherAlive, fatherAlive, parentsTogether, hasInsurance := '\0', '\0', '\0', '\0';
    }

    /** The injected constructor with its overrides: each applied in turn,
        the i-th ageBetween drawing ages[i]; an ageBetween whose bounds are
        crossed makes randomBetween throw. */
    static method Create(rng: RandomSource, dataMaster: DataMaster, strip: string -> string,
                         parentsAliveKey: string, nin: (Option<Date>, Option<Sex>) -> string,
                         now: DateTime, today: Date, properties: seq<PersonProperty>,
                         bounds: AgeBounds)
      returns (r: Result<DefaultPersonProvider>, ghost ages: seq<int>)
      modifies rng, bounds
      ensures r.Success? ==>
                fresh(r.value) && r.value.rng == rng && r.value.dataMaster == dataMaster
                && r.value.strip == strip && r.value.parentsAliveKey == parentsAliveKey
                && r.value.nin == nin && r.value.now == now && r.value.today == today
      ensures r.Success? ==>
                |ages| == |properties|
                && r.value.Fields() == OverriddenAll(EMPTY_DRAFT, properties, ages)
                && forall i :: 0 <= i < |properties| && properties[i].AgeBetween? ==>
                                 properties[i].minAge <= ages[i] <= properties[i].maxAge
      ensures (forall i :: 0 <= i < |properties| && properties[i].AgeBetween? ==>
                             properties[i].minAge <= properties[i].maxAge) ==> r.Success?
      ensures r.Failure? ==> r.error == BadRange
    {
      var p := new DefaultPersonProvider(rng, dataMaster, strip, parentsAliveKey, nin, now, today);
      ages := [];
      var i := 0;
      while i < |properties|
        invariant 0 <= i <= |properties| && |ages| == i
        invariant fresh(p) && p.rng == rng && p.dataMaster == dataMaster && p.strip == strip
        invariant p.parentsAliveKey == parentsAliveKey && p.nin == nin
        invariant p.now == now && p.today == today
        invariant p.Fields() == OverriddenAll(EMPTY_DRAFT, properties[..i], ages)
        invariant forall k :: 0 <= k < i && properties[k].AgeBetween? ==>
                               properties[k].minAge <= ages[k] <= properties[k].maxAge
      {
        var before := p.Fields();
        var o, drawn := p.Apply(properties[i], bounds);
        if o.Fail? {
          return Failure(o.error), ages;
        }
        OverriddenAllSnoc(EMPTY_DRAFT, properties[..i], ages, properties[i], drawn);
        assert properties[..i + 1] == properties[..i] + [properties[i]];
        ages := ages + [drawn];
        i := i + 1;
      }
      assert properties[..i] == properties;
      return Success(p), ages;
    }

    /** PersonProperty.apply: one setter call; ageBetween first draws the
        age, then records its bounds. */
    method Apply(p: PersonProperty, bounds: AgeBounds) returns (o: Outcome, ghost drawn: int)
      modifies this, rng, bounds
      ensures o.Pass? ==> Fields() == Overridden(old(Fields()), p, drawn)
      ensures o.Fail? ==> Fields() == old(Fields())
      ensures o.Fail? <==> p.AgeBetween? && p.minAge > p.maxAge
      ensures o.Fail? ==> o.error == BadRange
      ensures p.AgeBetween? && o.Pass? ==>
                p.minAge <= drawn <= p.maxAge
                && bounds.minimumAge == Some(p.minAge) && bounds.maximumAge == Some(p.maxAge)
      ensures !(p.AgeBetween? && o.Pass?) ==>
                bounds.minimumAge == old(bounds.minimumAge) && bounds.maximumAge == old(bounds.maximumAge)
    {
      drawn := 0;
      o := Pass;
      if p.AgeBetween? {
        var a := rng.CheckedBetween(p.minAge, p.maxAge);
        if a.Failure? {
          return Fail(a.error), drawn;
        }
        SetAge(a.value);
        drawn := a.value;
        bounds.Record(p.minAge, p.maxAge);
      } else if p.MaleProperty? {
        SetSex(Male);
      } else if p.FemaleProperty? {
        SetSex(Female);
      } else if NamesOverride(p) {
        ApplyNames(p);
      } else {
        ApplyPapers(p);
      }
    }

    /** The overrides of the company, the address, the names, the e-mail,
        the username and the two telephone numbers. */
    static predicate NamesOverride(p: PersonProperty) {
      p.WithCompany? || p.WithAddress? || p.WithFirstName? || p.WithMiddleName?
      || p.WithLastName? || p.WithEmail? || p.WithUsername? || p.WithTelephoneNumber?
      || p.WithMobileTelephoneNumber?
    }

    method ApplyNames(p: PersonProperty)
      requires NamesOverride(p)
      modifies this
      ensures Fields() == Overridden(old(Fields()), p, 0)
    {
      if p.WithCompany? {
        SetCompany(p.company);
      } else if p.WithAddress? {
        SetAddress(p.address);
      } else if p.WithFirstName? {
        SetFirstName(p.firstName);
      } else if p.WithMiddleName? {
        SetMiddleName(p.middleName);
      } else if p.WithLastName? {
        SetLastName(p.lastName);
      } else if p.WithEmail? {
        SetEmail(p.email);
      } else if p.WithUsername? {
        SetUsername(p.username);
      } else if p.WithTelephoneNumber? {
        SetTelephoneNumber(p.telephoneNumber);
      } else {
        SetMobileTelephoneNumber(p.mobileTelephoneNumber);
      }
    }

    /** The remaining overrides: telephone formats, birth date, age, papers,
        company e-mail, marital status and blood type. */
    method ApplyPapers(p: PersonProperty)
      requires !p.MaleProperty? && !p.FemaleProperty? && !p.AgeBetween? && !NamesOverride(p)
      modifies this
      ensures Fields() == Overridden(old(Fields()), p, 0)
    {
      if p.TelephoneFormat? {
        SetTelephoneNumberFormat(p.telephoneFormat);
      } else if p.MobileTelephoneFormat? {
        SetMobileTelephoneNumberFormat(p.mobileTelephoneNumberFormat);
      } else if p.WithDateOfBirth? {
        SetDateOfBirth(p.dateOfBirth);
      } else if p.WithAge? {
        SetAge(p.age);
      } else if p.WithPassword? {
        SetPassword(p.password);
      } else if p.WithCompanyEmail? {
        SetCompanyEmail(p.companyEmail);
      } else if p.WithNationalIdentityCardNumber? {
        SetNationalIdentityCardNumber(p.nationalIdentityCardNumber);
      } else if p.WithNationalIdentificationNumber? {
        SetNationalIdentificationNumber(p.nationalIdentificationNumber);
      } else if p.WithPassportNumber? {
        SetPassportNumber(p.passportNumber);
      } else if p.WithMaritalStatus? {
        SetMaritalStatus(p.maritalStatus);
      } else {
        SetBloodType(p.bloodType);
      }
    }

    /** get(): every generateX step in the source's order, then the Person
        built from the fields; the first step that throws ends the call. */
    method Get(supplied: Supplied) returns (r: Result<Person>, ghost togetherCoin: bool)
      requires ValidDate(today)
      modifies this, rng, dataMaster.rng
      ensures KeepsPresets(old(Fields()), Fields())
      ensures r.Success? ==> Complete(Fields()) && r.value == Assembled(Fields())
      ensures r.Success? && old(firstName).None? ==>
                TypedListed(dataMaster.dataSource, FIRST_NAME, SexName(r.value.sex), r.value.firstName)
      ensures r.Success? && old(middleName).None? ==>
                r.value.middleName == ""
                || TypedListed(dataMaster.dataSource, FIRST_NAME, SexName(r.value.sex), r.value.middleName)
      ensures r.Success? && old(lastName).None? ==>
                TypedListed(dataMaster.dataSource, LAST_NAME, SexName(r.value.sex), r.value.lastName)
      ensures r.Success? && old(email).None? ==> Cleaned(r.value.email)
      ensures r.Success? && old(username).None? ==> forall x :: x in r.value.username ==> !IsUpper(x)
      ensures r.Success? && old(company).None? ==>
                r.value.company.vatIdentificationNumber == supplied.vatIdentificationNumber
                && Listed(dataMaster.dataSource, Companies.COMPANY_EMAIL, r.value.company.email)
      ensures r.Success? && old(telephoneNumber).None? ==>
                telephoneNumberFormat.Some? && Numerified(telephoneNumberFormat.value, r.value.telephoneNumber)
      ensures r.Success? && old(mobileTelephoneNumber).None? ==>
                mobileTelephoneNumberFormat.Some?
                && Numerified(mobileTelephoneNumberFormat.value, r.value.mobileTelephoneNumber)
      ensures r.Success? && old(dateOfBirth).Some? ==>
                r.value.age == Some(YearsBetween(r.value.dateOfBirth, now.date))
      ensures r.Success? && old(dateOfBirth).None? && old(age).Some? ==> r.value.age == old(age)
      ensures r.Success? && old(dateOfBirth).None? && old(age).None? ==>
                MIN_AGE <= r.value.age.value <= MAX_AGE
      ensures r.Success? && old(dateOfBirth).None? && r.value.age.value >= 0 ==>
                YearsBetween(r.value.dateOfBirth, today) == r.value.age.value
      ensures r.Success? && old(companyEmail).None? ==>
                r.value.companyEmail
                == CompanyEmail(strip, r.value.firstName, r.value.lastName, r.value.company.domain)
      ensures r.Success? && old(nationalIdentificationNumber).None? ==>
                r.value.nationalIdentificationNumber == nin(Some(r.value.dateOfBirth), Some(r.value.sex))
      ensures r.Success? ==>
                GetLanguage(dataMaster.dataSource).Success?
                && NationalityFits(GetLanguage(dataMaster.dataSource).value, r.value.nationality)
      ensures r.Success? && old(profession).None? && r.value.age.value <= UNDERAGE_LIMIT ==>
                r.value.profession == UNKNOWN
      ensures r.Success? && old(profession).None? && r.value.age.value > UNDERAGE_LIMIT ==>
                TypedListed(dataMaster.dataSource, PROFESSION, SexName(r.value.sex), r.value.profession)
      ensures r.Success? && old(martialStatus).None? && r.value.age.value <= UNDERAGE_LIMIT ==>
                r.value.martialStatus == UNKNOWN
      ensures r.Success? && old(martialStatus).None? && r.value.age.value > UNDERAGE_LIMIT ==>
                Listed(dataMaster.dataSource, MARITAL_STATUS, r.value.martialStatus)
      ensures r.Success? ==> Listed(dataMaster.dataSource, BLOOD_TYPE, r.value.bloodType)
      ensures r.Success? && old(nameOfMother).None? ==>
                TypedListed(dataMaster.dataSource, FIRST_NAME, SexName(Female), r.value.nameOfMother)
      ensures r.Success? && old(nameOfFather).None? ==>
                TypedListed(dataMaster.dataSource, FIRST_NAME, SexName(Male), r.value.nameOfFather)
      ensures r.Success? ==> StatusListed(motherAlive) && StatusListed(fatherAlive)
      ensures r.Success? && old(parentsTogether) == '\0' ==>
                r.value.parentsTogether == ParentsTogether(motherAlive, fatherAlive, togetherCoin)
      ensures r.Success? && old(hasInsurance) == '\0' ==> r.value.hasInsurance in "YN"
    {
      togetherCoin := false;
      ghost var d0 := Fields();
      var o := FillPersonal(supplied.vatIdentificationNumber);
      if o.Fail? {
        return Failure(o.error), togetherCoin;
      }
      ghost var d1 := Fields();
      o, togetherCoin := FillBackground(supplied);
      KeepsPresetsTransitive(d0, d1, Fields());
      if o.Fail? {
        return Failure(o.error), togetherCoin;
      }
      r := Success(Person(firstName.value, middleName.value, lastName.value, address.value,
                          email.value, username.value, password.value, sex.value,
                          telephoneNumber.value, mobileTelephoneNumber.value, dateOfBirth.value,
                          age, nationalIdentityCardNumber.value, nationalIdentificationNumber.value,
                          passportNumber.value, company.value, companyEmail.value,
                          nationality.value, profession.value, martialStatus.value,
                          bloodType.value, nameOfMother.value, nameOfFather.value,
                          parentsTogether, hasInsurance));
    }

    /** The first eleven steps of get(), sex to company e-mail. */
    method FillPersonal(vatIdentificationNumber: string) returns (o: Outcome)
      requires ValidDate(today)
      modifies this, rng, dataMaster.rng
      ensures Fields() == old(Fields()).(sex := sex, company := company, firstName := firstName,
                                         middleName := middleName, lastName := lastName,
                                         email := email, username := username,
                                         telephoneNumberFormat := telephoneNumberFormat,
                                         telephoneNumber := telephoneNumber,
                                         age := age, dateOfBirth := dateOfBirth,
                                         companyEmail := companyEmail)
      ensures KeepsPresets(old(Fields()), Fields())
      ensures o.Pass? ==>
                sex.Some? && company.Some? && firstName.Some? && middleName.Some? && lastName.Some?
                && email.Some? && username.Some? && telephoneNumber.Some?
                && age.Some? && dateOfBirth.Some? && companyEmail.Some?
      ensures o.Pass? && old(firstName).None? ==>
                TypedListed(dataMaster.dataSource, FIRST_NAME, SexName(sex.value), firstName.value)
      ensures o.Pass? && old(middleName).None? ==>
                middleName == Some("")
                || TypedListed(dataMaster.dataSource, FIRST_NAME, SexName(sex.value), middleName.value)
      ensures o.Pass? && old(lastName).None? ==>
                TypedListed(dataMaster.dataSource, LAST_NAME, SexName(sex.value), lastName.value)
      ensures o.Pass? && old(company).None? ==>
                company.value.vatIdentificationNumber == vatIdentificationNumber
                && Listed(dataMaster.dataSource, Companies.COMPANY_EMAIL, company.value.email)
      ensures o.Pass? && old(email).None? ==> Cleaned(email.value)
      ensures o.Pass? && old(username).None? ==> forall x :: x in username.value ==> !IsUpper(x)
      ensures o.Pass? && old(telephoneNumber).None? ==>
                telephoneNumberFormat.Some? && Numerified(telephoneNumberFormat.value, telephoneNumber.value)
      ensures o.Pass? && old(dateOfBirth).Some? ==>
                age == Some(YearsBetween(old(dateOfBirth).value, now.date))
      ensures o.Pass? && old(dateOfBirth).None? && old(age).Some? ==> age == old(age)
      ensures o.Pass? && old(dateOfBirth).None? && old(age).None? ==> MIN_AGE <= age.value <= MAX_AGE
      ensures o.Pass? && old(dateOfBirth).None? && age.value >= 0 ==>
                YearsBetween(dateOfBirth.value, today) == age.value
      ensures o.Pass? && old(companyEmail).None? ==>
                companyEmail.value
                == CompanyEmail(strip, firstName.value, lastName.value, company.value.domain)
    {
      ghost var d0 := Fields();
      o := GenerateNames(vatIdentificationNumber);
      if o.Fail? {
        return;
      }
      ghost var d1 := Fields();
      o := GenerateContacts();
      KeepsPresetsTransitive(d0, d1, Fields());
      if o.Fail? {
        return;
      }
      ghost var d2 := Fields();
      o := GenerateBirth();
      KeepsPresetsTransitive(d0, d2, Fields());
    }

    /** The last sixteen steps of get(), password to insurance flag. */
    method FillBackground(supplied: Supplied) returns (o: Outcome, ghost togetherCoin: bool)
      modifies this, rng, dataMaster.rng
      ensures Fields() == old(Fields()).(password := password,
                                         nationalIdentityCardNumber := nationalIdentityCardNumber,
                                         nationalIdentificationNumber := nationalIdentificationNumber,
                                         passportNumber := passportNumber, address := address,
                                         nationality := nationality,
                                         mobileTelephoneNumberFormat := mobileTelephoneNumberFormat,
                                         mobileTelephoneNumber := mobileTelephoneNumber,
                                         profession := profession, martialStatus := martialStatus,
                                         bloodType := bloodType, nameOfMother := nameOfMother,
                                         nameOfFather := nameOfFather, motherAlive := motherAlive,
                                         fatherAlive := fatherAlive,
                                         parentsTogether := parentsTogether,
                                         hasInsurance := hasInsurance)
      ensures KeepsPresets(old(Fields()), Fields())
      ensures GetLanguage(dataMaster.dataSource).Failure? ==> o.Fail?
      ensures o.Pass? ==>
                password.Some? && nationalIdentityCardNumber.Some? && nationalIdentificationNumber.Some?
                && passportNumber.Some? && address.Some? && nationality.Some? && mobileTelephoneNumber.Some?
                && profession.Some? && martialStatus.Some? && bloodType.Some?
                && nameOfMother.Some? && nameOfFather.Some?
      ensures o.Pass? && old(nationalIdentificationNumber).None? ==>
                nationalIdentificationNumber == Some(nin(dateOfBirth, sex))
      ensures o.Pass? ==> NationalityFits(GetLanguage(dataMaster.dataSource).value, nationality.value)
      ensures o.Pass? && old(mobileTelephoneNumber).None? ==>
                mobileTelephoneNumberFormat.Some?
                && Numerified(mobileTelephoneNumberFormat.value, mobileTelephoneNumber.value)
      ensures o.Pass? && old(profession).None? ==>
                age.Some?
                && (age.value <= UNDERAGE_LIMIT ==> profession == Some(UNKNOWN))
                && (age.value > UNDERAGE_LIMIT ==>
                      sex.Some?
                      && TypedListed(dataMaster.dataSource, PROFESSION, SexName(sex.value), profession.value))
      ensures o.Pass? && old(martialStatus).None? ==>
                age.Some?
                && (age.value <= UNDERAGE_LIMIT ==> martialStatus == Some(UNKNOWN))
                && (age.value > UNDERAGE_LIMIT ==>
                      Listed(dataMaster.dataSource, MARITAL_STATUS, martialStatus.value))
      ensures o.Pass? ==> Listed(dataMaster.dataSource, BLOOD_TYPE, bloodType.value)
      ensures o.Pass? && old(nameOfMother).None? ==>
                TypedListed(dataMaster.dataSource, FIRST_NAME, SexName(Female), nameOfMother.value)
      ensures o.Pass? && old(nameOfFather).None? ==>
                TypedListed(dataMaster.dataSource, FIRST_NAME, SexName(Male), nameOfFather.value)
      ensures o.Pass? ==> StatusListed(motherAlive) && StatusListed(fatherAlive)
      ensures o.Pass? && old(parentsTogether) == '\0' ==>
                parentsTogether == ParentsTogether(motherAlive, fatherAlive, togetherCoin)
      ensures o.Pass? && old(hasInsurance) == '\0' ==> hasInsurance == 'Y' || hasInsurance == 'N'
    {
      togetherCoin := false;
      ghost var d0 := Fields();
      o := GeneratePapers(supplied);
      if o.Fail? {
        return;
      }
      ghost var d1 := Fields();
      o := GenerateOccupation();
      KeepsPresetsTransitive(d0, d1, Fields());
      if o.Fail? {
        return;
      }
      ghost var d2 := Fields();
      o, togetherCoin := GenerateFamily();
      KeepsPresetsTransitive(d0, d2, Fields());
    }

    /** The first five steps of get(): sex, company, and the first, middle
        and last name. */
    method GenerateNames(vatIdentificationNumber: string) returns (o: Outcome)
      modifies this, rng, dataMaster.rng
      ensures Fields() == old(Fields()).(sex := sex, company := company, firstName := firstName,
                                         middleName := middleName, lastName := lastName)
      ensures KeepsPresets(old(Fields()), Fields())
      ensures o.Pass? ==>
                sex.Some? && company.Some? && firstName.Some? && middleName.Some? && lastName.Some?
      ensures o.Pass? && old(firstName).None? ==>
                TypedListed(dataMaster.dataSource, FIRST_NAME, SexName(sex.value), firstName.value)
      ensures o.Pass? && old(middleName).None? ==>
                middleName == Some("")
                || TypedListed(dataMaster.dataSource, FIRST_NAME, SexName(sex.value), middleName.value)
      ensures o.Pass? && old(lastName).None? ==>
                TypedListed(dataMaster.dataSource, LAST_NAME, SexName(sex.value), lastName.value)
      ensures o.Pass? && old(company).None? ==>
                company.value.vatIdentificationNumber == vatIdentificationNumber
                && Listed(dataMaster.dataSource, Companies.COMPANY_EMAIL, company.value.email)
    {
      GenerateSex();
      ghost var base, suffix;
      o, base, suffix := GenerateCompany(vatIdentificationNumber);
      if o.Fail? {
        return;
      }
      o := GenerateFirstName();
      if o.Fail? {
        return;
      }
      o := GenerateMiddleName();
      if o.Fail? {
        return;
      }
      o := GenerateLastName();
    }

    /** Steps six to eight of get(): e-mail, username and telephone number. */
    method GenerateContacts() returns (o: Outcome)
      modifies this, rng, dataMaster.rng
      ensures Fields() == old(Fields()).(email := email, username := username,
                                         telephoneNumberFormat := telephoneNumberFormat,
                                         telephoneNumber := telephoneNumber)
      ensures KeepsPresets(old(Fields()), Fields())
      ensures o.Pass? ==> email.Some? && username.Some? && telephoneNumber.Some?
      ensures o.Pass? && old(email).None? ==> Cleaned(email.value)
      ensures o.Pass? && old(username).None? ==> forall x :: x in username.value ==> !IsUpper(x)
      ensures o.Pass? && old(telephoneNumber).None? ==>
                telephoneNumberFormat.Some? && Numerified(telephoneNumberFormat.value, telephoneNumber.value)
    {
      ghost var variant, domain;
      o, variant, domain := GenerateEmail();
      if o.Fail? {
        return;
      }
      o := GenerateUsername();
      if o.Fail? {
        return;
      }
      o := GenerateTelephoneNumber();
    }

    /** Steps nine to eleven of get(): age, birth date and company e-mail. */
    method GenerateBirth() returns (o: Outcome)
      requires ValidDate(today)
      modifies this, rng
      ensures Fields() == old(Fields()).(age := age, dateOfBirth := dateOfBirth,
                                         companyEmail := companyEmail)
      ensures KeepsPresets(old(Fields()), Fields())
      ensures o.Pass? ==> age.Some? && dateOfBirth.Some? && companyEmail.Some?
      ensures old(dateOfBirth).Some? ==> age == Some(YearsBetween(old(dateOfBirth).value, now.date))
      ensures old(dateOfBirth).None? && old(age).Some? ==> age == old(age)
      ensures old(dateOfBirth).None? && old(age).None? ==> age.Some? && MIN_AGE <= age.value <= MAX_AGE
      ensures o.Pass? && old(dateOfBirth).None? && age.value >= 0 ==>
                YearsBetween(dateOfBirth.value, today) == age.value
      ensures o.Pass? && old(companyEmail).None? ==>
                company.Some?
                && companyEmail.value
                   == CompanyEmail(strip, JavaText(firstName), JavaText(lastName), company.value.domain)
    {
      GenerateAge();
      o := GenerateDateOfBirth();
      if o.Fail? {
        return;
      }
      o := GenerateCompanyEmail();
    }

    /** Steps twelve to eighteen of get(): password, identity card number,
        national identification number, passport number, address,
        nationality and mobile number. */
    method GeneratePapers(supplied: Supplied) returns (o: Outcome)
      modifies this, rng, dataMaster.rng
      ensures Fields() == old(Fields()).(password := password,
                                         nationalIdentityCardNumber := nationalIdentityCardNumber,
                                         nationalIdentificationNumber := nationalIdentificationNumber,
                                         passportNumber := passportNumber, address := address,
                                         nationality := nationality,
                                         mobileTelephoneNumberFormat := mobileTelephoneNumberFormat,
                                         mobileTelephoneNumber := mobileTelephoneNumber)
      ensures KeepsPresets(old(Fields()), Fields())
      ensures GetLanguage(dataMaster.dataSource).Failure? ==> o.Fail?
      ensures o.Pass? ==>
                password.Some? && nationalIdentityCardNumber.Some? && nationalIdentificationNumber.Some?
                && passportNumber.Some? && address.Some? && nationality.Some? && mobileTelephoneNumber.Some?
      ensures old(nationalIdentificationNumber).None? ==>
                nationalIdentificationNumber == Some(nin(dateOfBirth, sex))
      ensures o.Pass? ==> NationalityFits(GetLanguage(dataMaster.dataSource).value, nationality.value)
      ensures o.Pass? && old(mobileTelephoneNumber).None? ==>
                mobileTelephoneNumberFormat.Some?
                && Numerified(mobileTelephoneNumberFormat.value, mobileTelephoneNumber.value)
    {
      GeneratePassword(supplied.password);
      GenerateNationalIdentityCardNumber(supplied.nationalIdentityCardNumber);
      GenerateNationalIdentificationNumber();
      GeneratePassportNumber(supplied.passportNumber);
      GenerateAddress(supplied.address);
      o := GenerateNationality();
      if o.Fail? {
        return;
      }
      o := GenerateMobileTelephoneNumber();
    }

    /** Steps nineteen to twenty-one of get(): profession, marital status
        and blood type. */
    method GenerateOccupation() returns (o: Outcome)
      modifies this, dataMaster.rng
      ensures Fields() == old(Fields()).(profession := profession, martialStatus := martialStatus,
                                         bloodType := bloodType)
      ensures KeepsPresets(old(Fields()), Fields())
      ensures o.Pass? ==> profession.Some? && martialStatus.Some? && bloodType.Some?
      ensures o.Pass? && old(profession).None? ==>
                age.Some?
                && (age.value <= UNDERAGE_LIMIT ==> profession == Some(UNKNOWN))
                && (age.value > UNDERAGE_LIMIT ==>
                      sex.Some?
                      && TypedListed(dataMaster.dataSource, PROFESSION, SexName(sex.value), profession.value))
      ensures o.Pass? && old(martialStatus).None? ==>
                age.Some?
                && (age.value <= UNDERAGE_LIMIT ==> martialStatus == Some(UNKNOWN))
                && (age.value > UNDERAGE_LIMIT ==>
                      Listed(dataMaster.dataSource, MARITAL_STATUS, martialStatus.value))
      ensures o.Pass? ==> Listed(dataMaster.dataSource, BLOOD_TYPE, bloodType.value)
    {
      o := GenerateProfession();
      if o.Fail? {
        return;
      }
      o := GenerateMaritalStatus();
      if o.Fail? {
        return;
      }
      o := GenerateBloodType();
    }

    /** The last six steps of get(): the parents' names and statuses,
        whether they live together and the insurance flag. */
    method GenerateFamily() returns (o: Outcome, ghost togetherCoin: bool)
      modifies this, rng, dataMaster.rng
      ensures Fields() == old(Fields()).(nameOfMother := nameOfMother,
                                         nameOfFather := nameOfFather, motherAlive := motherAlive,
                                         fatherAlive := fatherAlive,
                                         parentsTogether := parentsTogether,
                                         hasInsurance := hasInsurance)
      ensures KeepsPresets(old(Fields()), Fields())
      ensures o.Pass? ==> nameOfMother.Some? && nameOfFather.Some?
      ensures o.Pass? && old(nameOfMother).None? ==>
                TypedListed(dataMaster.dataSource, FIRST_NAME, SexName(Female), nameOfMother.value)
      ensures o.Pass? && old(nameOfFather).None? ==>
                TypedListed(dataMaster.dataSource, FIRST_NAME, SexName(Male), nameOfFather.value)
      ensures o.Pass? ==> StatusListed(motherAlive) && StatusListed(fatherAlive)
      ensures o.Pass? && old(parentsTogether) == '\0' ==>
                parentsTogether == ParentsTogether(motherAlive, fatherAlive, togetherCoin)
      ensures o.Pass? && old(hasInsurance) == '\0' ==> hasInsurance == 'Y' || hasInsurance == 'N'
    {
      togetherCoin := false;
      o := GenerateNameOfMother();
      if o.Fail? {
        return;
      }
      o := GenerateNameOfFather();
      if o.Fail? {
        return;
      }
      o := GenerateMotherAlive();
      if o.Fail? {
        return;
      }
      o := GenerateFatherAlive();
      if o.Fail? {
        return;
      }
      togetherCoin := Heads(rng, rng.position);
      GenerateParentsTogether();
      GenerateHasInsurance();
    }

    /** generateSex: a preset sex is kept, otherwise the coin picks male on
        true. */
    method GenerateSex()
      modifies this, rng
      ensures Fields() == old(Fields()).(sex := sex)
      ensures old(sex).Some? ==> sex == old(sex) && rng.position == old(rng.position)
      ensures old(sex).None? ==>
                sex == Some(if Heads(rng, old(rng.position)) then Male else Female)
                && rng.position == old(rng.position) + 1
    {
      if sex.Some? {
        return;
      }
      var coin := rng.TrueOrFalse();
      sex := Some(if coin then Male else Female);
    }

    /** generateCompany: a preset company is kept, otherwise a fresh company
        provider without overrides builds one. */
    method GenerateCompany(vatIdentificationNumber: string)
      returns (o: Outcome, ghost base: string, ghost suffix: Option<string>)
      modifies this, rng, dataMaster.rng
      ensures Fields() == old(Fields()).(company := company)
      ensures old(company).Some? ==> company == old(company) && o.Pass?
      ensures old(company).None? && GetStringList(dataMaster.dataSource, Companies.COMPANY_NAME).Failure? ==>
                o.Fail?
      ensures old(company).None? && o.Pass? ==>
                company.Some? && company.value.vatIdentificationNumber == vatIdentificationNumber
                && company.value.name == Companies.CompanyName(base, suffix)
                && Listed(dataMaster.dataSource, Companies.COMPANY_NAME, base)
                && Listed(dataMaster.dataSource, Companies.COMPANY_EMAIL, company.value.email)
    {
      base, suffix := "", None;
      if company.Some? {
        return Pass, base, suffix;
      }
      var provider := new Companies.CompanyProvider(rng, dataMaster, strip, []);
      var made;
      ghost var tld;
      made, base, suffix, tld := provider.Get(vatIdentificationNumber);
      if made.Failure? {
        return Fail(made.error), base, suffix;
      }
      company := Some(made.value);
      o := Pass;
    }

    /** generateFirstName: a preset first name is kept, otherwise one is
        drawn from the first names of the person's sex; without a sex,
        sex.name() throws. */
    method GenerateFirstName() returns (o: Outcome)
      modifies this, dataMaster.rng
      ensures Fields() == old(Fields()).(firstName := firstName)
      ensures old(firstName).Some? ==> firstName == old(firstName) && o.Pass?
      ensures old(firstName).None? && sex.None? ==> o == Fail(NullPointer)
      ensures old(firstName).None? && sex.Some? ==>
                (TypedList(dataMaster.dataSource, FIRST_NAME, SexName(sex.value)).Failure? ==> o.Fail?)
      ensures old(firstName).None? && o.Pass? ==>
                sex.Some? && firstName.Some?
                && TypedListed(dataMaster.dataSource, FIRST_NAME, SexName(sex.value), firstName.value)
    {
      if firstName.Some? {
        return Pass;
      }
      if sex.None? {
        return Fail(NullPointer);
      }
      var drawn := DrawTypedString(dataMaster, FIRST_NAME, SexName(sex.value));
      if drawn.Failure? {
        return Fail(drawn.error);
      }
      firstName := Some(drawn.value);
      o := Pass;
    }

    /** generateMiddleName: a preset middle name is kept, otherwise the coin
        decides between a first name of the person's sex and no middle name. */
    method GenerateMiddleName() returns (o: Outcome)
      modifies this, rng, dataMaster.rng
      ensures Fields() == old(Fields()).(middleName := middleName)
      ensures old(middleName).Some? ==> middleName == old(middleName) && o.Pass?
      ensures old(middleName).None? && !Heads(rng, old(rng.position)) ==> o.Pass? && middleName == Some("")
      ensures old(middleName).None? && Heads(rng, old(rng.position)) && sex.None? ==> o == Fail(NullPointer)
      ensures old(middleName).None? && Heads(rng, old(rng.position)) && o.Pass? ==>
                sex.Some? && middleName.Some?
                && TypedListed(dataMaster.dataSource, FIRST_NAME, SexName(sex.value), middleName.value)
    {
      if middleName.Some? {
        return Pass;
      }
      var coin := rng.TrueOrFalse();
      if !coin {
        middleName := Some("");
        return Pass;
      }
      if sex.None? {
        return Fail(NullPointer);
      }
      var drawn := DrawTypedString(dataMaster, FIRST_NAME, SexName(sex.value));
      if drawn.Failure? {
        return Fail(drawn.error);
      }
      middleName := Some(drawn.value);
      o := Pass;
    }

    /** generateLastName: a preset last name is kept, otherwise one is drawn
        from the last names of the person's sex. */
    method GenerateLastName() returns (o: Outcome)
      modifies this, dataMaster.rng
      ensures Fields() == old(Fields()).(lastName := lastName)
      ensures old(lastName).Some? ==> lastName == old(lastName) && o.Pass?
      ensures old(lastName).None? && sex.None? ==> o == Fail(NullPointer)
      ensures old(lastName).None? && sex.Some? ==>
                (TypedList(dataMaster.dataSource, LAST_NAME, SexName(sex.value)).Failure? ==> o.Fail?)
      ensures old(lastName).None? && o.Pass? ==>
                sex.Some? && lastName.Some?
                && TypedListed(dataMaster.dataSource, LAST_NAME, SexName(sex.value), lastName.value)
    {
      if lastName.Some? {
        return Pass;
      }
      if sex.None? {
        return Fail(NullPointer);
      }
      var drawn := DrawTypedString(dataMaster, LAST_NAME, SexName(sex.value));
      if drawn.Failure? {
        return Fail(drawn.error);
      }
      lastName := Some(drawn.value);
      o := Pass;
    }

    /** generateEmail: a preset address is kept, otherwise EmailProvider
        builds one from the names (a null name reads "null"). */
    method GenerateEmail() returns (o: Outcome, ghost variant: int, ghost domain: string)
      modifies this, rng, dataMaster.rng
      ensures Fields() == old(Fields()).(email := email)
      ensures old(email).Some? ==> email == old(email) && o.Pass?
      ensures old(email).None? && GetStringList(dataMaster.dataSource, PERSONAL_EMAIL).Failure? ==> o.Fail?
      ensures old(email).None? && o.Pass? ==>
                1 <= variant <= 3 && Listed(dataMaster.dataSource, PERSONAL_EMAIL, domain)
                && email == Some(Clean(strip, Personal(variant, JavaText(firstName), JavaText(lastName), domain)))
    {
      variant, domain := 0, "";
      if email.Some? {
        return Pass, variant, domain;
      }
      var made;
      made, variant, domain := Emails.Get(rng, dataMaster, strip, JavaText(firstName), JavaText(lastName));
      if made.Failure? {
        return Fail(made.error), variant, domain;
      }
      email := Some(made.value);
      o := Pass;
    }

    /** generateUsername: a preset username is kept, otherwise the coin picks
        the base, whose accents are stripped before it is lower-cased. */
    method GenerateUsername() returns (o: Outcome)
      modifies this, rng
      ensures Fields() == old(Fields()).(username := username)
      ensures old(username).Some? ==> username == old(username) && o.Pass?
      ensures old(username).None? ==>
                var base := UsernameBase(Heads(rng, old(rng.position)), firstName, lastName);
                (o.Pass? <==> base.Success?)
                && (base.Failure? ==> o == Fail(base.error))
                && (base.Success? ==> username == Some(Username(strip, base.value)))
    {
      if username.Some? {
        return Pass;
      }
      var coin := rng.TrueOrFalse();
      var base := UsernameBase(coin, firstName, lastName);
      if base.Failure? {
        return Fail(base.error);
      }
      username := Some(Username(strip, base.value));
      o := Pass;
    }

    /** generateTelephoneNumber: a preset number is kept; otherwise a
        missing format is drawn from the catalog and kept, and the number is
        the format with every '#' replaced by a digit. */
    method GenerateTelephoneNumber() returns (o: Outcome)
      modifies this, rng, dataMaster.rng
      ensures Fields() == old(Fields()).(telephoneNumberFormat := telephoneNumberFormat,
                                         telephoneNumber := telephoneNumber)
      ensures old(telephoneNumber).Some? ==> Fields() == old(Fields()) && o.Pass?
      ensures old(telephoneNumber).None? && old(telephoneNumberFormat).Some? ==>
                o.Pass? && telephoneNumberFormat == old(telephoneNumberFormat)
      ensures old(telephoneNumber).None? && old(telephoneNumberFormat).None? ==>
                (GetStringList(dataMaster.dataSource, TELEPHONE_NUMBER_FORMATS).Failure? ==> o.Fail?)
      ensures old(telephoneNumber).None? && old(telephoneNumberFormat).None? && o.Pass? ==>
                telephoneNumberFormat.Some?
                && Listed(dataMaster.dataSource, TELEPHONE_NUMBER_FORMATS, telephoneNumberFormat.value)
      ensures old(telephoneNumber).None? && o.Pass? ==>
                telephoneNumberFormat.Some? && telephoneNumber.Some?
                && Numerified(telephoneNumberFormat.value, telephoneNumber.value)
    {
      if telephoneNumber.Some? {
        return Pass;
      }
      var made := MakeTelephoneNumber(rng, dataMaster, telephoneNumberFormat);
      if made.Failure? {
        return Fail(made.error);
      }
      telephoneNumberFormat, telephoneNumber := Some(made.value.0), Some(made.value.1);
      o := Pass;
    }

    /** generateMobileTelephoneNumber: as generateTelephoneNumber, on the
        mobile format and number. */
    method GenerateMobileTelephoneNumber() returns (o: Outcome)
      modifies this, rng, dataMaster.rng
      ensures Fields() == old(Fields()).(mobileTelephoneNumberFormat := mobileTelephoneNumberFormat,
                                         mobileTelephoneNumber := mobileTelephoneNumber)
      ensures old(mobileTelephoneNumber).Some? ==> Fields() == old(Fields()) && o.Pass?
      ensures old(mobileTelephoneNumber).None? && old(mobileTelephoneNumberFormat).Some? ==>
                o.Pass? && mobileTelephoneNumberFormat == old(mobileTelephoneNumberFormat)
      ensures old(mobileTelephoneNumber).None? && old(mobileTelephoneNumberFormat).None? ==>
                (GetStringList(dataMaster.dataSource, TELEPHONE_NUMBER_FORMATS).Failure? ==> o.Fail?)
      ensures old(mobileTelephoneNumber).None? && old(mobileTelephoneNumberFormat).None? && o.Pass? ==>
                mobileTelephoneNumberFormat.Some?
                && Listed(dataMaster.dataSource, TELEPHONE_NUMBER_FORMATS, mobileTelephoneNumberFormat.value)
      ensures old(mobileTelephoneNumber).None? && o.Pass? ==>
                mobileTelephoneNumberFormat.Some? && mobileTelephoneNumber.Some?
                && Numerified(mobileTelephoneNumberFormat.value, mobileTelephoneNumber.value)
    {
      if mobileTelephoneNumber.Some? {
        return Pass;
      }
      var made := MakeTelephoneNumber(rng, dataMaster, mobileTelephoneNumberFormat);
      if made.Failure? {
        return Fail(made.error);
      }
      mobileTelephoneNumberFormat, mobileTelephoneNumber := Some(made.value.0), Some(made.value.1);
      o := Pass;
    }

    /** generateAge: with a birth date the age is recomputed as the whole
        years from it to now; otherwise a preset age is kept, or one is drawn
        between MIN_AGE and MAX_AGE. */
    method GenerateAge()
      modifies this, rng
      ensures Fields() == old(Fields()).(age := age)
      ensures old(dateOfBirth).Some? ==> age == Some(YearsBetween(dateOfBirth.value, now.date))
      ensures old(dateOfBirth).None? && old(age).Some? ==> age == old(age)
      ensures old(dateOfBirth).None? && old(age).None? ==>
                age.Some? && MIN_AGE <= age.value <= MAX_AGE
      ensures age.Some?
    {
      if dateOfBirth.Some? {
        age := Some(YearsBetween(dateOfBirth.value, now.date));
        return;
      }
      if age.Some? {
        return;
      }
      var drawn := rng.RandomBetween(MIN_AGE, MAX_AGE);
      age := Some(drawn);
    }

    /** generateDateOfBirth: a preset birth date is kept; otherwise one is
        drawn from the window of dates exactly `age` whole years before
        today (without an age, unboxing it throws). */
    method GenerateDateOfBirth() returns (o: Outcome)
      requires ValidDate(today)
      modifies this, rng
      ensures Fields() == old(Fields()).(dateOfBirth := dateOfBirth)
      ensures old(dateOfBirth).Some? ==> dateOfBirth == old(dateOfBirth) && o.Pass?
      ensures old(dateOfBirth).None? && age.None? ==> o == Fail(NullPointer)
      ensures old(dateOfBirth).None? && age.Some? ==>
                o.Pass? && dateOfBirth.Some? && ValidDate(dateOfBirth.value)
                && InWindow(EarliestBirth(today, age.value), LatestBirth(today, age.value), dateOfBirth.value)
      ensures old(dateOfBirth).None? && age.Some? && age.value >= 0 ==>
                YearsBetween(dateOfBirth.value, today) == age.value
    {
      if dateOfBirth.Some? {
        return Pass;
      }
      if age.None? {
        return Fail(NullPointer);
      }
      var drawn := DrawBirth(rng, today, age.value);
      dateOfBirth := Some(drawn);
      o := Pass;
    }

    /** generateCompanyEmail: a preset address is kept, otherwise
        CompanyEmailProvider builds one from the names and the company's
        domain; without a company, getDomain() throws. */
    method GenerateCompanyEmail() returns (o: Outcome)
      modifies this
      ensures Fields() == old(Fields()).(companyEmail := companyEmail)
      ensures old(companyEmail).Some? ==> companyEmail == old(companyEmail) && o.Pass?
      ensures old(companyEmail).None? && company.None? ==> o == Fail(NullPointer)
      ensures old(companyEmail).None? && company.Some? ==>
                o.Pass?
                && companyEmail == Some(CompanyEmail(strip, JavaText(firstName), JavaText(lastName),
                                                     company.value.domain))
    {
      if companyEmail.Some? {
        return Pass;
      }
      if company.None? {
        return Fail(NullPointer);
      }
      companyEmail := Some(CompanyEmail(strip, JavaText(firstName), JavaText(lastName), company.value.domain));
      o := Pass;
    }

    /** generatePassword: a preset password is kept, otherwise the supplied
        one is taken. */
    method GeneratePassword(supplied: string)
      modifies this
      ensures Fields() == old(Fields()).(password := password)
      ensures password == if old(password).Some? then old(password) else Some(supplied)
    {
      if password.None? {
        password := Some(supplied);
      }
    }

    /** generateNationalIdentityCardNumber: a preset number is kept,
        otherwise the locale provider's is taken. */
    method GenerateNationalIdentityCardNumber(supplied: string)
      modifies this
      ensures Fields() == old(Fields()).(nationalIdentityCardNumber := nationalIdentityCardNumber)
      ensures nationalIdentityCardNumber ==
                if old(nationalIdentityCardNumber).Some? then old(nationalIdentityCardNumber) else Some(supplied)
    {
      if nationalIdentityCardNumber.None? {
        nationalIdentityCardNumber := Some(supplied);
      }
    }

    /** generateNationalIdentificationNumber: a preset number is kept,
        otherwise the locale's number for the birth date and the sex. */
    method GenerateNationalIdentificationNumber()
      modifies this
      ensures Fields() == old(Fields()).(nationalIdentificationNumber := nationalIdentificationNumber)
      ensures nationalIdentificationNumber ==
                if old(nationalIdentificationNumber).Some? then old(nationalIdentificationNumber)
                else Some(nin(dateOfBirth, sex))
    {
      if nationalIdentificationNumber.None? {
        nationalIdentificationNumber := Some(nin(dateOfBirth, sex));
      }
    }

    /** generateAddress: a preset address is kept, otherwise the locale
        provider's is taken. */
    method GenerateAddress(supplied: Address)
      modifies this
      ensures Fields() == old(Fields()).(address := address)
      ensures address == if old(address).Some? then old(address) else Some(supplied)
    {
      if address.None? {
        address := Some(supplied);
      }
    }

    /** generatePassportNumber: a preset number is kept, otherwise the
        locale provider's is taken. */
    method GeneratePassportNumber(supplied: string)
      modifies this
      ensures Fields() == old(Fields()).(passportNumber := passportNumber)
      ensures passportNumber == if old(passportNumber).Some? then old(passportNumber) else Some(supplied)
    {
      if passportNumber.None? {
        passportNumber := Some(supplied);
      }
    }

    /** generateNationality: always drawn, from the countries that speak the
        catalog's language, Uganda when there are none. */
    method GenerateNationality() returns (o: Outcome)
      modifies this, rng
      ensures Fields() == old(Fields()).(nationality := nationality)
      ensures GetLanguage(dataMaster.dataSource).Failure? ==> o.Fail? && nationality == old(nationality)
      ensures GetLanguage(dataMaster.dataSource).Success? ==>
                o.Pass? && nationality.Some?
                && NationalityFits(GetLanguage(dataMaster.dataSource).value, nationality.value)
    {
      var language := GetLanguage(dataMaster.dataSource);
      if language.Failure? {
        return Fail(language.error);
      }
      var countries := NationalityCandidates(language.value);
      if countries == [] {
        nationality := Some(Uganda);
      } else {
        var picked := rng.RandomElement(countries);
        nationality := Some(picked.value);
      }
      o := Pass;
    }

    /** generateProfession: a preset profession is kept; at UNDERAGE_LIMIT
        or younger it is UNKNOWN, otherwise one is drawn from the professions
        of the person's sex. */
    method GenerateProfession() returns (o: Outcome)
      modifies this, dataMaster.rng
      ensures Fields() == old(Fields()).(profession := profession)
      ensures old(profession).Some? ==> profession == old(profession) && o.Pass?
      ensures old(profession).None? && age.None? ==> o == Fail(NullPointer)
      ensures old(profession).None? && age.Some? && age.value <= UNDERAGE_LIMIT ==>
                o.Pass? && profession == Some(UNKNOWN)
      ensures old(profession).None? && age.Some? && age.value > UNDERAGE_LIMIT && sex.None? ==>
                o == Fail(NullPointer)
      ensures old(profession).None? && age.Some? && age.value > UNDERAGE_LIMIT && o.Pass? ==>
                sex.Some? && profession.Some?
                && TypedListed(dataMaster.dataSource, PROFESSION, SexName(sex.value), profession.value)
    {
      if profession.Some? {
        return Pass;
      }
      if age.None? {
        return Fail(NullPointer);
      }
      if age.value <= UNDERAGE_LIMIT {
        profession := Some(UNKNOWN);
        return Pass;
      }
      if sex.None? {
        return Fail(NullPointer);
      }
      var drawn := DrawTypedString(dataMaster, PROFESSION, SexName(sex.value));
      if drawn.Failure? {
        return Fail(drawn.error);
      }
      profession := Some(drawn.value);
      o := Pass;
    }

    /** generateMaritalStatus: a preset status is kept; at UNDERAGE_LIMIT or
        younger it is UNKNOWN, otherwise one is drawn from the catalog. */
    method GenerateMaritalStatus() returns (o: Outcome)
      modifies this, dataMaster.rng
      ensures Fields() == old(Fields()).(martialStatus := martialStatus)
      ensures old(martialStatus).Some? ==> martialStatus == old(martialStatus) && o.Pass?
      ensures old(martialStatus).None? && age.None? ==> o == Fail(NullPointer)
      ensures old(martialStatus).None? && age.Some? && age.value <= UNDERAGE_LIMIT ==>
                o.Pass? && martialStatus == Some(UNKNOWN)
      ensures old(martialStatus).None? && age.Some? && age.value > UNDERAGE_LIMIT ==>
                (GetStringList(dataMaster.dataSource, MARITAL_STATUS).Failure? ==> o.Fail?)
      ensures old(martialStatus).None? && age.Some? && age.value > UNDERAGE_LIMIT && o.Pass? ==>
                martialStatus.Some? && Listed(dataMaster.dataSource, MARITAL_STATUS, martialStatus.value)
    {
      if martialStatus.Some? {
        return Pass;
      }
      if age.None? {
        return Fail(NullPointer);
      }
      if age.value <= UNDERAGE_LIMIT {
        martialStatus := Some(UNKNOWN);
        return Pass;
      }
      var drawn := dataMaster.GetRandomValue(MARITAL_STATUS);
      if drawn.Failure? {
        return Fail(drawn.error);
      }
      martialStatus := Some(drawn.value);
      o := Pass;
    }

    /** generateBloodType: always drawn from the catalog. */
    method GenerateBloodType() returns (o: Outcome)
      modifies this, dataMaster.rng
      ensures Fields() == old(Fields()).(bloodType := bloodType)
      ensures GetStringList(dataMaster.dataSource, BLOOD_TYPE).Failure? ==> o.Fail?
      ensures o.Fail? ==> bloodType == old(bloodType)
      ensures o.Pass? ==> bloodType.Some? && Listed(dataMaster.dataSource, BLOOD_TYPE, bloodType.value)
    {
      var drawn := dataMaster.GetRandomValue(BLOOD_TYPE);
      if drawn.Failure? {
        return Fail(drawn.error);
      }
      bloodType := Some(drawn.value);
      o := Pass;
    }

    /** generateNameOfMother: a preset name is kept, otherwise a female
        first name is drawn. */
    method GenerateNameOfMother() returns (o: Outcome)
      modifies this, dataMaster.rng
      ensures Fields() == old(Fields()).(nameOfMother := nameOfMother)
      ensures old(nameOfMother).Some? ==> nameOfMother == old(nameOfMother) && o.Pass?
      ensures old(nameOfMother).None? && TypedList(dataMaster.dataSource, FIRST_NAME, SexName(Female)).Failure? ==>
                o.Fail?
      ensures old(nameOfMother).None? && o.Pass? ==>
                nameOfMother.Some?
                && TypedListed(dataMaster.dataSource, FIRST_NAME, SexName(Female), nameOfMother.value)
    {
      if nameOfMother.Some? {
        return Pass;
      }
      var drawn := DrawTypedString(dataMaster, FIRST_NAME, SexName(Female));
      if drawn.Failure? {
        return Fail(drawn.error);
      }
      nameOfMother := Some(drawn.value);
      o := Pass;
    }

    /** generateNameOfFather: a preset name is kept, otherwise a male first
        name is drawn. */
    method GenerateNameOfFather() returns (o: Outcome)
      modifies this, dataMaster.rng
      ensures Fields() == old(Fields()).(nameOfFather := nameOfFather)
      ensures old(nameOfFather).Some? ==> nameOfFather == old(nameOfFather) && o.Pass?
      ensures old(nameOfFather).None? && TypedList(dataMaster.dataSource, FIRST_NAME, SexName(Male)).Failure? ==>
                o.Fail?
      ensures old(nameOfFather).None? && o.Pass? ==>
                nameOfFather.Some?
                && TypedListed(dataMaster.dataSource, FIRST_NAME, SexName(Male), nameOfFather.value)
    {
      if nameOfFather.Some? {
        return Pass;
      }
      var drawn := DrawTypedString(dataMaster, FIRST_NAME, SexName(Male));
      if drawn.Failure? {
        return Fail(drawn.error);
      }
      nameOfFather := Some(drawn.value);
      o := Pass;
    }

    /** generateMotherAlive: always the first character of a status drawn
        from the catalog; charAt(0) of an empty one throws. */
    method GenerateMotherAlive() returns (o: Outcome)
      modifies this, dataMaster.rng
      ensures Fields() == old(Fields()).(motherAlive := motherAlive)
      ensures GetStringList(dataMaster.dataSource, parentsAliveKey).Failure? ==> o.Fail?
      ensures o.Fail? ==> motherAlive == old(motherAlive)
      ensures o.Pass? ==> StatusListed(motherAlive)
    {
      var drawn := DrawStatus();
      if drawn.Failure? {
        return Fail(drawn.error);
      }
      motherAlive := drawn.value;
      o := Pass;
    }

    /** generateFatherAlive: as generateMotherAlive, for the father. */
    method GenerateFatherAlive() returns (o: Outcome)
      modifies this, dataMaster.rng
      ensures Fields() == old(Fields()).(fatherAlive := fatherAlive)
      ensures GetStringList(dataMaster.dataSource, parentsAliveKey).Failure? ==> o.Fail?
      ensures o.Fail? ==> fatherAlive == old(fatherAlive)
      ensures o.Pass? ==> StatusListed(fatherAlive)
    {
      var drawn := DrawStatus();
      if drawn.Failure? {
        return Fail(drawn.error);
      }
      fatherAlive := drawn.value;
      o := Pass;
    }

    /** `c` starts one of the statuses listed under parentsAliveKey. */
    ghost predicate StatusListed(c: char)
      reads dataMaster
    {
      exists s :: Listed(dataMaster.dataSource, parentsAliveKey, s) && s != "" && s[0] == c
    }

    /** getRandomValue(PARENTS_ALIVE).charAt(0). */
    method DrawStatus() returns (r: Result<char>)
      modifies dataMaster.rng
      ensures GetStringList(dataMaster.dataSource, parentsAliveKey).Failure? ==> r.Failure?
      ensures r.Success? ==> StatusListed(r.value)
    {
      var drawn := dataMaster.GetRandomValue(parentsAliveKey);
      if drawn.Failure? {
        return Failure(drawn.error);
      }
      if drawn.value == "" {
        return Failure(IndexOutOfBounds);
      }
      r := Success(drawn.value[0]);
    }

    /** generateParentsTogether: a preset flag is kept, otherwise the rule
        on the parents' statuses, with the coin drawn only when neither is
        unknown or dead. */
    method GenerateParentsTogether()
      modifies this, rng
      ensures Fields() == old(Fields()).(parentsTogether := parentsTogether)
      ensures old(parentsTogether) != '\0' ==> parentsTogether == old(parentsTogether)
      ensures old(parentsTogether) == '\0' ==>
                parentsTogether == ParentsTogether(motherAlive, fatherAlive, Heads(rng, old(rng.position)))
    {
      if parentsTogether != '\0' {
        return;
      }
      if motherAlive == 'U' || fatherAlive == 'U' {
        parentsTogether := 'U';
      } else if motherAlive == 'D' || fatherAlive == 'D' {
        parentsTogether := 'N';
      } else {
        var coin := rng.TrueOrFalse();
        parentsTogether := if coin then 'Y' else 'N';
      }
    }

    /** generateHasInsurance: a preset flag is kept, otherwise the coin
        gives 'Y' or 'N'. */
    method GenerateHasInsurance()
      modifies this, rng
      ensures Fields() == old(Fields()).(hasInsurance := hasInsurance)
      ensures old(hasInsurance) != '\0' ==> hasInsurance == old(hasInsurance)
      ensures old(hasInsurance) == '\0' ==> hasInsurance == if Heads(rng, old(rng.position)) then 'Y' else 'N'
    {
      if hasInsurance != '\0' {
        return;
      }
      var coin := rng.TrueOrFalse();
      hasInsurance := if coin then 'Y' else 'N';
    }

    method SetTelephoneNumberFormat(v: string)
      modifies this
      ensures Fields() == old(Fields()).(telephoneNumberFormat := Some(v))
    {
      telephoneNumberFormat := Some(v);
    }

    method SetMobileTelephoneNumberFormat(v: string)
      modifies this
      ensures Fields() == old(Fields()).(mobileTelephoneNumberFormat := Some(v))
    {
      mobileTelephoneNumberFormat := Some(v);
    }

    method SetSex(v: Sex)
      modifies this
      ensures Fields() == old(Fields()).(sex := Some(v))
    {
      sex := Some(v);
    }

    method SetAge(v: int)
      modifies this
      ensures Fields() == old(Fields()).(age := Some(v))
    {
      age := Some(v);
    }

    method SetCompany(v: Companies.Company)
      modifies this
      ensures Fields() == old(Fields()).(company := Some(v))
    {
      company := Some(v);
    }

    method SetFirstName(v: string)
      modifies this
      ensures Fields() == old(Fields()).(firstName := Some(v))
    {
      firstName := Some(v);
    }

    method SetMiddleName(v: string)
      modifies this
      ensures Fields() == old(Fields()).(middleName := Some(v))
    {
      middleName := Some(v);
    }

    method SetLastName(v: string)
      modifies this
      ensures Fields() == old(Fields()).(lastName := Some(v))
    {
      lastName := Some(v);
    }

    method SetEmail(v: string)
      modifies this
      ensures Fields() == old(Fields()).(email := Some(v))
    {
      email := Some(v);
    }

    method SetUsername(v: string)
      modifies this
      ensures Fields() == old(Fields()).(username := Some(v))
    {
      username := Some(v);
    }

    method SetTelephoneNumber(v: string)
      modifies this
      ensures Fields() == old(Fields()).(telephoneNumber := Some(v))
    {
      telephoneNumber := Some(v);
    }

    /** setMobileTelephoneNumber assigns the (landline) telephone number. */
    method SetMobileTelephoneNumber(v: string)
      modifies this
      ensures Fields() == old(Fields()).(telephoneNumber := Some(v))
      ensures mobileTelephoneNumber == old(mobileTelephoneNumber)
    {
      telephoneNumber := Some(v);
    }

    method SetDateOfBirth(v: Date)
      modifies this
      ensures Fields() == old(Fields()).(dateOfBirth := Some(v))
    {
      dateOfBirth := Some(v);
    }

    method SetPassword(v: string)
      modifies this
      ensures Fields() == old(Fields()).(password := Some(v))
    {
      password := Some(v);
    }

    method SetAddress(v: Address)
      modifies this
      ensures Fields() == old(Fields()).(address := Some(v))
    {
      address := Some(v);
    }

    method SetCompanyEmail(v: string)
      modifies this
      ensures Fields() == old(Fields()).(companyEmail := Some(v))
    {
      companyEmail := Some(v);
    }

    method SetNationalIdentityCardNumber(v: string)
      modifies this
      ensures Fields() == old(Fields()).(nationalIdentityCardNumber := Some(v))
    {
      nationalIdentityCardNumber := Some(v);
    }

    method SetNationalIdentificationNumber(v: string)
      modifies this
      ensures Fields() == old(Fields()).(nationalIdentificationNumber := Some(v))
    {
      nationalIdentificationNumber := Some(v);
    }

    method SetPassportNumber(v: string)
      modifies this
      ensures Fields() == old(Fields()).(passportNumber := Some(v))
    {
      passportNumber := Some(v);
    }

    method SetProfession(v: string)
      modifies this
      ensures Fields() == old(Fields()).(profession := Some(v))
    {
      profession := Some(v);
    }

    method SetMaritalStatus(v: string)
      modifies this
      ensures Fields() == old(Fields()).(martialStatus := Some(v))
    {
      martialStatus := Some(v);
    }

    method SetBloodType(v: string)
      modifies this
      ensures Fields() == old(Fields()).(bloodType := Some(v))
    {
      bloodType := Some(v);
    }

    method SetNameOfMother(v: string)
      modifies this
      ensures Fields() == old(Fields()).(nameOfMother := Some(v))
    {
      nameOfMother := Some(v);
    }

    method SetNameOfFather(v: string)
      modifies this
      ensures Fields() == old(Fields()).(nameOfFather := Some(v))
    {
      nameOfFather := Some(v);
    }

    method SetParentsTogether(v: char)
      modifies this
      ensures Fields() == old(Fields()).(parentsTogether := v)
    {
      parentsTogether := v;
    }
  }
}
