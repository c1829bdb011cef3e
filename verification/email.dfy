/** The two e-mail builders: EmailProvider (a random local-part variant and a
    catalog domain) and CompanyEmailProvider (first.last at the company's
    domain). `strip` stands for the library accent stripping. */
module Emails {
  import opened Wrappers
  import opened Chars
  import opened Random
  import opened Catalog
  import opened TextUtils

  const PERSONAL_EMAIL: string := "personalEmails"

  /** The local part for draw `variant`: 1 is first + last without spaces,
      2 is first.last with every space turned into '.', 3 is last without
      spaces; any other value leaves the prefix empty. */
  function LocalPart(variant: int, firstName: string, lastName: string): string {
    if variant == 1 then RemoveChar(firstName + lastName, ' ')
    else if variant == 2 then ReplaceChar(firstName + "." + lastName, ' ', ".")
    else if variant == 3 then RemoveChar(lastName, ' ')
    else ""
  }

  /** No variant leaves a space in the local part. */
  lemma LocalPartHasNoSpaces(variant: int, firstName: string, lastName: string)
    ensures ' ' !in LocalPart(variant, firstName, lastName)
  {
  }

  /** Variants 1 and 3 drop exactly the spaces. */
  lemma LocalPartDropsSpaces(firstName: string, lastName: string)
    ensures |LocalPart(1, firstName, lastName)| == |firstName + lastName| - Occurrences(firstName + lastName, ' ')
    ensures |LocalPart(3, firstName, lastName)| == |lastName| - Occurrences(lastName, ' ')
  {
    RemoveCharLength(firstName + lastName, ' ');
    RemoveCharLength(lastName, ' ');
  }

  /** Variant 2 keeps the length: a '.' stands for each space. */
  lemma LocalPartDotsSpaces(firstName: string, lastName: string)
    ensures |LocalPart(2, firstName, lastName)| == |firstName| + 1 + |lastName|
  {
    ReplaceCharLength(firstName + "." + lastName, ' ', ".");
  }

  /** The address before clean-up: lowerCase(prefix + '@' + domain). */
  function Personal(variant: int, firstName: string, lastName: string, domain: string): string {
    Lower(LocalPart(variant, firstName, lastName) + "@" + domain)
  }

  /** The domain follows the last '@' of the address. */
  lemma PersonalDomain(variant: int, firstName: string, lastName: string, domain: string)
    requires '@' !in domain
    ensures var e := Personal(variant, firstName, lastName, domain);
            var k := |LocalPart(variant, firstName, lastName)|;
            e[k] == '@' && e[k + 1..] == Lower(domain) && '@' !in e[k + 1..]
  {
    var p := LocalPart(variant, firstName, lastName);
    var e := Personal(variant, firstName, lastName, domain);
    var k := |p|;
    assert (p + "@" + domain)[k + 1..] == domain;
    forall i | 0 <= i < |domain| ensures e[k + 1 + i] == ToLowerChar(domain[i]) && e[k + 1 + i] != '@' {
      assert (p + "@" + domain)[k + 1 + i] == domain[i];
    }
  }

  /** EmailProvider.get: a draw in 1..3 picks the local part, the catalog
      list "personalEmails" gives the domain, and the lower-cased address is
      cleaned. */
  method Get(rng: RandomSource, dataMaster: DataMaster, strip: string -> string, firstName: string, lastName: string)
    returns (r: Result<string>, ghost variant: int, ghost domain: string)
    modifies rng, dataMaster.rng
    ensures GetStringList(dataMaster.dataSource, PERSONAL_EMAIL).Failure? ==> r.Failure?
    ensures r.Success? ==>
              1 <= variant <= 3 && YStr(domain) in GetStringList(dataMaster.dataSource, PERSONAL_EMAIL).value
              && r.value == Clean(strip, Personal(variant, firstName, lastName, domain))
    ensures r.Success? ==> Cleaned(r.value)
  {
    var drawn := rng.RandomBetween(1, 3);
    variant := drawn;
    var prefix := LocalPart(drawn, firstName, lastName);
    var chosen := dataMaster.GetRandomValue(PERSONAL_EMAIL);
    if chosen.Failure? {
      return Failure(chosen.error), variant, "";
    }
    domain := chosen.value;
    r := Success(Clean(strip, Lower(prefix + "@" + chosen.value)));
  }

  /** CompanyEmailProvider.get: lowerCase(first + '.' + last + '@' + domain)
      with every space turned into '.', then cleaned; no draw is made. */
  function CompanyEmail(strip: string -> string, firstName: string, lastName: string, companyDomain: string): (r: string)
    ensures Cleaned(r)
  {
    Clean(strip, ReplaceChar(Lower(firstName + "." + lastName + "@" + companyDomain), ' ', "."))
  }

  /** Before clean-up the company address has no space and is as long as
      its parts with the '.' and the '@'. */
  lemma CompanyEmailShape(firstName: string, lastName: string, companyDomain: string)
    ensures var e := ReplaceChar(Lower(firstName + "." + lastName + "@" + companyDomain), ' ', ".");
            ' ' !in e && |e| == |firstName| + |lastName| + |companyDomain| + 2
  {
    var l := Lower(firstName + "." + lastName + "@" + companyDomain);
    ReplaceCharLength(l, ' ', ".");
  }
}
