/** NoNationalIdentificationNumberFactory: the provider of locales without a
    national identification number. */
module NoNin {
  import opened Calendar
  import opened Sexes

  /** The provider keeps no state: properties and setters leave nothing
      behind. */
  datatype NoNinProvider = NoNinProvider

  /** A call made on the provider before get. */
  datatype Call = SetIssueDate(date: Date) | SetSex(sex: Sex)

  /** produceNationalIdentificationNumberProvider: the properties are
      accepted and ignored. */
  function Produce<P>(properties: seq<P>): (p: NoNinProvider)
    ensures p == NoNinProvider
  {
    NoNinProvider
  }

  /** setIssueDate and setSex do nothing. */
  function Apply(p: NoNinProvider, c: Call): (q: NoNinProvider)
    ensures q == p
  {
    match c
    case SetIssueDate(_) => p
    case SetSex(_) => p
  }

  function ApplyAll(p: NoNinProvider, calls: seq<Call>): NoNinProvider {
    if calls == [] then p else ApplyAll(Apply(p, calls[0]), calls[1..])
  }

  /** get: always the empty number. */
  function Get(p: NoNinProvider): string {
    ""
  }

  /** Whatever properties and setter calls came first, get is empty. */
  lemma {:induction false} AlwaysEmpty<P>(properties: seq<P>, calls: seq<Call>)
    ensures ApplyAll(Produce(properties), calls) == Produce(properties)
    ensures Get(ApplyAll(Produce(properties), calls)) == ""
    decreases |calls|
  {
    if calls != [] {
      AlwaysEmpty(properties, calls[1..]);
    }
  }
}
