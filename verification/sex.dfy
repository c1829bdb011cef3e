/** Person.Sex, and the sex digit the Polish and Swedish national numbers
    carry. */
module Sexes {
  datatype Sex = Male | Female

  /** The even digits the sex digit is built on. */
  const SEX_FIELDS: seq<nat> := [0, 2, 4, 6, 8]

  /** calculateSexCode with the drawn index into SEX_FIELDS: an even digit,
      plus one for a man. */
  function SexCode(index: nat, sex: Sex): (c: nat)
    requires index < |SEX_FIELDS|
    ensures c <= 9
    ensures c % 2 == 1 <==> sex == Male
  {
    SEX_FIELDS[index] + (if sex == Male then 1 else 0)
  }
}
