/** PersonProperties: the overrides a caller hands to a person provider,
    the draft of provider fields they write to, and the static age bounds
    that minAge and maxAge read. */
module PersonProperties {
  import opened Wrappers
  import opened Sexes
  import opened Calendar
  import opened Countries
  import opened Addresses
  import Companies

  /** PersonProvider's age bounds and catalog keys. */
  const MIN_AGE: int := 1
  const MAX_AGE: int := 100
  const FIRST_NAME: string := "firstNames"
  const LAST_NAME: string := "lastNames"
  const TELEPHONE_NUMBER_FORMATS: string := "telephone_number_formats"
  const PROFESSION: string := "profession"
  const MARITAL_STATUS: string := "maritalStatus"
  const BLOOD_TYPE: string := "bloodType"

  /** The fields of DefaultPersonProvider; None is Java's null and the
      character '\0' an unset char. */
  datatype Draft = Draft(
    sex: Option<Sex>, telephoneNumberFormat: Option<string>,
    mobileTelephoneNumberFormat: Option<string>, age: Option<int>,
    dateOfBirth: Option<Date>, company: Option<Companies.Company>, address: Option<Address>,
    firstName: Option<string>, middleName: Option<string>, lastName: Option<string>,
    email: Option<string>, username: Option<string>, telephoneNumber: Option<string>,
    mobileTelephoneNumber: Option<string>, password: Option<string>,
    companyEmail: Option<string>, nationalIdentityCardNumber: Option<string>,
    nationalIdentificationNumber: Option<string>, passportNumber: Option<string>,
    nationality: Option<Country>, profession: Option<string>,
    martialStatus: Option<string>, bloodType: Option<string>,
    nameOfMother: Option<string>, motherAlive: char, nameOfFather: Option<string>,
    fatherAlive: char, parentsTogether: char, hasInsurance: char)

  /** A freshly built provider: every field unset. */
  const EMPTY_DRAFT: Draft := Draft(None, None, None, None, None, None, None, None, None,
                                    None, None, None, None, None, None, None, None, None,
                                    None, None, None, None, None, None, '\0', None, '\0',
                                    '\0', '\0')

  /** The overrides: male() and female(), ageBetween (which minAge and maxAge
      build), the two telephone formats and the withX setters. */
  datatype PersonProperty =
    | MaleProperty
    | FemaleProperty
    | AgeBetween(minAge: int, maxAge: int)
    | TelephoneFormat(telephoneFormat: string)
    | MobileTelephoneFormat(mobileTelephoneNumberFormat: string)
    | WithCompany(company: Companies.Company)
    | WithAddress(address: Address)
    | WithFirstName(firstName: string)
    | WithMiddleName(middleName: string)
    | WithLastName(lastName: string)
    | WithEmail(email: string)
    | WithUsername(username: string)
    | WithTelephoneNumber(telephoneNumber: string)
    | WithMobileTelephoneNumber(mobileTelephoneNumber: string)
    | WithDateOfBirth(dateOfBirth: Date)
    | WithAge(age: int)
    | WithPassword(password: string)
    | WithCompanyEmail(companyEmail: string)
    | WithNationalIdentityCardNumber(nationalIdentityCardNumber: string)
    | WithNationalIdentificationNumber(nationalIdentificationNumber: string)
    | WithPassportNumber(passportNumber: string)
    | WithMaritalStatus(maritalStatus: string)
    | WithBloodType(bloodType: string)

  /** The draft after one override; `drawnAge` is the age ageBetween drew. */
  function Overridden(d: Draft, p: PersonProperty, drawnAge: int): Draft {
    match p
    case MaleProperty => d.(sex := Some(Male))
    case FemaleProperty => d.(sex := Some(Female))
    case AgeBetween(_, _) => d.(age := Some(drawnAge))
    case TelephoneFormat(f) => d.(telephoneNumberFormat := Some(f))
    case MobileTelephoneFormat(f) => d.(mobileTelephoneNumberFormat := Some(f))
    case WithCompany(v) => d.(company := Some(v))
    case WithAddress(v) => d.(address := Some(v))
    case WithFirstName(v) => d.(firstName := Some(v))
    case WithMiddleName(v) => d.(middleName := Some(v))
    case WithLastName(v) => d.(lastName := Some(v))
    case WithEmail(v) => d.(email := Some(v))
    case WithUsername(v) => d.(username := Some(v))
    case WithTelephoneNumber(v) => d.(telephoneNumber := Some(v))
    // setMobileTelephoneNumber assigns telephoneNumber
    case WithMobileTelephoneNumber(v) => d.(telephoneNumber := Some(v))
    case WithDateOfBirth(v) => d.(dateOfBirth := Some(v))
    case WithAge(v) => d.(age := Some(v))
    case WithPassword(v) => d.(password := Some(v))
    case WithCompanyEmail(v) => d.(companyEmail := Some(v))
    case WithNationalIdentityCardNumber(v) => d.(nationalIdentityCardNumber := Some(v))
    case WithNationalIdentificationNumber(v) => d.(nationalIdentificationNumber := Some(v))
    case WithPassportNumber(v) => d.(passportNumber := Some(v))
    case WithMaritalStatus(v) => d.(martialStatus := Some(v))
    case WithBloodType(v) => d.(bloodType := Some(v))
  }

  /** The draft after the overrides in order, the i-th ageBetween having
      drawn ages[i]. */
  function OverriddenAll(d: Draft, ps: seq<PersonProperty>, ages: seq<int>): Draft
    requires |ages| == |ps|
    decreases |ps|
  {
    if ps == [] then d else OverriddenAll(Overridden(d, ps[0], ages[0]), ps[1..], ages[1..])
  }

  /** One more override applies on top of all the earlier ones. */
  lemma {:induction false} OverriddenAllSnoc(d: Draft, ps: seq<PersonProperty>, ages: seq<int>,
                                             p: PersonProperty, a: int)
    requires |ages| == |ps|
    ensures OverriddenAll(d, ps + [p], ages + [a]) == Overridden(OverriddenAll(d, ps, ages), p, a)
    decreases |ps|
  {
    if ps == [] {
      assert ps + [p] == [p] && ages + [a] == [a];
      assert OverriddenAll(d, [p], [a]) == OverriddenAll(Overridden(d, p, a), [], []);
    } else {
      assert (ps + [p])[1..] == ps[1..] + [p];
      assert (ages + [a])[1..] == ages[1..] + [a];
      OverriddenAllSnoc(Overridden(d, ps[0], ages[0]), ps[1..], ages[1..], p, a);
    }
  }

  /** The names of the fields an override can write. */
  datatype Field =
    | SexField | TelephoneNumberFormatField | MobileTelephoneNumberFormatField | AgeField
    | DateOfBirthField | CompanyField | AddressField | FirstNameField | MiddleNameField
    | LastNameField | EmailField | UsernameField | TelephoneNumberField | PasswordField
    | CompanyEmailField | NationalIdentityCardNumberField | NationalIdentificationNumberField
    | PassportNumberField | MartialStatusField | BloodTypeField

  /** The one field each override's setter assigns. */
  function Target(p: PersonProperty): Field {
    match p
    case MaleProperty => SexField
    case FemaleProperty => SexField
    case AgeBetween(_, _) => AgeField
    case TelephoneFormat(_) => TelephoneNumberFormatField
    case MobileTelephoneFormat(_) => MobileTelephoneNumberFormatField
    case WithCompany(_) => CompanyField
    case WithAddress(_) => AddressField
    case WithFirstName(_) => FirstNameField
    case WithMiddleName(_) => MiddleNameField
    case WithLastName(_) => LastNameField
    case WithEmail(_) => EmailField
    case WithUsername(_) => UsernameField
    case WithTelephoneNumber(_) => TelephoneNumberField
    case WithMobileTelephoneNumber(_) => TelephoneNumberField
    case WithDateOfBirth(_) => DateOfBirthField
    case WithAge(_) => AgeField
    case WithPassword(_) => PasswordField
    case WithCompanyEmail(_) => CompanyEmailField
    case WithNationalIdentityCardNumber(_) => NationalIdentityCardNumberField
    case WithNationalIdentificationNumber(_) => NationalIdentificationNumberField
    case WithPassportNumber(_) => PassportNumberField
    case WithMaritalStatus(_) => MartialStatusField
    case WithBloodType(_) => BloodTypeField
  }

  /** Two drafts that agree on every field except possibly `f`. */
  predicate AgreeExcept(d: Draft, e: Draft, f: Field) {
    (f != SexField ==> d.sex == e.sex)
    && (f != TelephoneNumberFormatField ==> d.telephoneNumberFormat == e.telephoneNumberFormat)
    && (f != MobileTelephoneNumberFormatField ==>
          d.mobileTelephoneNumberFormat == e.mobileTelephoneNumberFormat)
    && (f != AgeField ==> d.age == e.age)
    && (f != DateOfBirthField ==> d.dateOfBirth == e.dateOfBirth)
    && (f != CompanyField ==> d.company == e.company)
    && (f != AddressField ==> d.address == e.address)
    && (f != FirstNameField ==> d.firstName == e.firstName)
    && (f != MiddleNameField ==> d.middleName == e.middleName)
    && (f != LastNameField ==> d.lastName == e.lastName)
    && (f != EmailField ==> d.email == e.email)
    && (f != UsernameField ==> d.username == e.username)
    && (f != TelephoneNumberField ==> d.telephoneNumber == e.telephoneNumber)
    && d.mobileTelephoneNumber == e.mobileTelephoneNumber
    && (f != PasswordField ==> d.password == e.password)
    && (f != CompanyEmailField ==> d.companyEmail == e.companyEmail)
    && (f != NationalIdentityCardNumberField ==>
          d.nationalIdentityCardNumber == e.nationalIdentityCardNumber)
    && (f != NationalIdentificationNumberField ==>
          d.nationalIdentificationNumber == e.nationalIdentificationNumber)
    && (f != PassportNumberField ==> d.passportNumber == e.passportNumber)
    && d.nationality == e.nationality
    && d.profession == e.profession
    && (f != MartialStatusField ==> d.martialStatus == e.martialStatus)
    && (f != BloodTypeField ==> d.bloodType == e.bloodType)
    && d.nameOfMother == e.nameOfMother && d.motherAlive == e.motherAlive
    && d.nameOfFather == e.nameOfFather && d.fatherAlive == e.fatherAlive
    && d.parentsTogether == e.parentsTogether && d.hasInsurance == e.hasInsurance
  }

  /** Each override touches its own field and nothing else; no override
      reaches the mobile number, the nationality, the profession, the
      parents or the insurance flag. */
  lemma OverrideTouchesTarget(d: Draft, p: PersonProperty, drawnAge: int)
    ensures AgreeExcept(d, Overridden(d, p, drawnAge), Target(p))
  {
  }

  /** The value each override leaves in its field: the sex for male() and
      female(), the drawn age for ageBetween, and the argument otherwise,
      so withMobileTelephoneNumber overwrites the telephone number. */
  lemma OverrideValue(d: Draft, p: PersonProperty, drawnAge: int)
    ensures var e := Overridden(d, p, drawnAge);
            (p.MaleProperty? ==> e.sex == Some(Male))
            && (p.FemaleProperty? ==> e.sex == Some(Female))
            && (p.AgeBetween? ==> e.age == Some(drawnAge))
            && (p.WithAge? ==> e.age == Some(p.age))
            && (p.WithMobileTelephoneNumber? ==>
                  e.telephoneNumber == Some(p.mobileTelephoneNumber)
                  && e.mobileTelephoneNumber == d.mobileTelephoneNumber)
            && (p.TelephoneFormat? ==>
                  e.telephoneNumberFormat == Some(p.telephoneFormat)
                  && e.telephoneNumber == d.telephoneNumber)
            && (p.MobileTelephoneFormat? ==>
                  e.mobileTelephoneNumberFormat == Some(p.mobileTelephoneNumberFormat)
                  && e.mobileTelephoneNumber == d.mobileTelephoneNumber)
  {
  }

  /** No sequence of overrides sets the mobile telephone number. */
  lemma {:induction false} OverridesNeverSetMobile(d: Draft, ps: seq<PersonProperty>, ages: seq<int>)
    requires |ages| == |ps|
    ensures OverriddenAll(d, ps, ages).mobileTelephoneNumber == d.mobileTelephoneNumber
    decreases |ps|
  {
    if ps != [] {
      OverrideTouchesTarget(d, ps[0], ages[0]);
      OverridesNeverSetMobile(Overridden(d, ps[0], ages[0]), ps[1..], ages[1..]);
    }
  }

  /** PersonProperties' static minimumAge and maximumAge. */
  class AgeBounds {
    var minimumAge: Option<int>
    var maximumAge: Option<int>

    constructor()
      ensures minimumAge == None && maximumAge == None
    {
      minimumAge, maximumAge := None, None;
    }

    /** minAge(m): records m, then ageBetween(m, the recorded maximum or 100). */
    method MinAge(m: int) returns (p: PersonProperty)
      modifies this
      ensures minimumAge == Some(m) && maximumAge == old(maximumAge)
      ensures p == AgeBetween(m, old(maximumAge).GetOr(MAX_AGE))
    {
      minimumAge := Some(m);
      p := AgeBetween(m, maximumAge.GetOr(MAX_AGE));
    }

    /** maxAge(M): records M, then ageBetween(the recorded minimum or 1, M). */
    method MaxAge(m: int) returns (p: PersonProperty)
      modifies this
      ensures maximumAge == Some(m) && minimumAge == old(minimumAge)
      ensures p == AgeBetween(old(minimumAge).GetOr(MIN_AGE), m)
    {
      maximumAge := Some(m);
      p := AgeBetween(minimumAge.GetOr(MIN_AGE), m);
    }

    /** The last two lines of ageBetween's apply. */
    method Record(minAge: int, maxAge: int)
      modifies this
      ensures minimumAge == Some(minAge) && maximumAge == Some(maxAge)
    {
      minimumAge := Some(minAge);
      maximumAge := Some(maxAge);
    }
  }

  /** The bound state carries over: after minAge(a), a maxAge(b) call builds
      ageBetween(a, b), whatever was recorded before. */
  method MinThenMax(bounds: AgeBounds, a: int, b: int) returns (p: PersonProperty, q: PersonProperty)
    modifies bounds
    ensures p == AgeBetween(a, old(bounds.maximumAge).GetOr(MAX_AGE))
    ensures q == AgeBetween(a, b)
    ensures bounds.minimumAge == Some(a) && bounds.maximumAge == Some(b)
  {
    p := bounds.MinAge(a);
    q := bounds.MaxAge(b);
  }
}
