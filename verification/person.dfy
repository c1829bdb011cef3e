/** Person: the immutable record a person provider hands out. */
module Persons {
  import opened Wrappers
  import opened Sexes
  import opened Calendar
  import opened Countries
  import opened Addresses
  import opened Companies

  /** The fields in the order the constructor takes them; None is Java's
      null (the boxed age is the only field the getters unbox). */
  datatype Person = Person(
    firstName: string, middleName: string, lastName: string, address: Address,
    email: string, username: string, password: string, sex: Sex,
    telephoneNumber: string, mobileTelephoneNumber: string, dateOfBirth: Date,
    age: Option<int>, nationalIdentityCardNumber: string,
    nationalIdentificationNumber: string, passportNumber: string, company: Company,
    companyEmail: string, nationality: Country, profession: string,
    martialStatus: string, bloodType: string, nameOfMother: string,
    nameOfFather: string, parentsTogether: char, hasInsurance: char)

  /** Sex.name(): the constant's name, the type key of the sexed name lists. */
  function SexName(s: Sex): (r: string)
    ensures r == "MALE" <==> s == Male
    ensures r == "FEMALE" <==> s == Female
  {
    match s
    case Male => "MALE"
    case Female => "FEMALE"
  }

  /** getFullName: the first name, one space, the last name. */
  function FullName(p: Person): (r: string)
    ensures |r| == |p.firstName| + 1 + |p.lastName|
    ensures r[..|p.firstName|] == p.firstName && r[|p.firstName|] == ' '
    ensures r[|p.firstName| + 1..] == p.lastName
  {
    p.firstName + " " + p.lastName
  }

  /** The middle name has no part in the full name. */
  lemma FullNameSkipsMiddle(p: Person, middle: string)
    ensures FullName(p.(middleName := middle)) == FullName(p)
  {
    var q := p.(middleName := middle);
    assert q.firstName == p.firstName && q.lastName == p.lastName;
  }

  /** Two people share a full name exactly when their first names and last
      names agree, provided the first names have no space. */
  lemma FullNameInjective(p: Person, q: Person)
    requires ' ' !in p.firstName && ' ' !in q.firstName
    ensures FullName(p) == FullName(q) <==> p.firstName == q.firstName && p.lastName == q.lastName
  {
    FirstSpace(p);
    FirstSpace(q);
  }

  /** Without a space in the first name, the full name's first space is the
      separator. */
  lemma FirstSpace(p: Person)
    requires ' ' !in p.firstName
    ensures forall i :: 0 <= i < |p.firstName| ==> FullName(p)[i] != ' '
  {
    forall i | 0 <= i < |p.firstName| ensures FullName(p)[i] != ' ' {
      assert FullName(p)[i] == p.firstName[i];
    }
  }

  predicate IsMale(p: Person) {
    p.sex == Male
  }

  predicate IsFemale(p: Person) {
    p.sex == Female
  }

  /** Every person is exactly one of male and female. */
  lemma MaleOrFemale(p: Person)
    ensures IsMale(p) <==> !IsFemale(p)
  {
  }

  /** getAge unboxes the age: a null age is a NullPointerException. */
  function GetAge(p: Person): (r: Result<int>)
    ensures r.Success? <==> p.age.Some?
    ensures r.Success? ==> Some(r.value) == p.age
    ensures r.Failure? ==> r.error == NullPointer
  {
    match p.age
    case Some(a) => Success(a)
    case None => Failure(NullPointer)
  }
}
