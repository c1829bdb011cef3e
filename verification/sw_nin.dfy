/** The Ugandan national identification number (SwNationalIdentificationNumberProvider):
    eleven digits for someone older than fifteen, nothing otherwise. */
module SwNin {
  import opened Wrappers
  import opened Chars
  import opened Calendar
  import opened Random
  import opened Sexes
  import opened DateProducer

  const NATIONAL_IDENTIFICATION_NUMBER_LENGTH: nat := 11
  const VALIDITY_IN_YEARS: nat := 15

  /** Someone born on `dateOfBirth` is old enough for a number on `today`:
      more than fifteen whole years have passed. */
  predicate OldEnough(dateOfBirth: Date, today: Date) {
    YearsBetween(dateOfBirth, today) > VALIDITY_IN_YEARS
  }

  /** A birth date no earlier than fifteen years before today is never old
      enough. */
  lemma DrawnBirthDateTooYoung(dateOfBirth: Date, now: DateTime)
    requires ValidDateTime(now) && ValidDate(dateOfBirth)
    requires NotAfter(PastWindowStart(now, VALIDITY_IN_YEARS).date, dateOfBirth)
    ensures !OldEnough(dateOfBirth, now.date)
  {
    var start := PastWindowStart(now, VALIDITY_IN_YEARS).date;
    var b := now.date;
    var months := (b.year * 12 + b.month) - (dateOfBirth.year * 12 + dateOfBirth.month);
    assert start.year == b.year - 15 && start.month == b.month;
    if dateOfBirth.year == start.year && dateOfBirth.month == start.month {
      assert months == 180;
    } else {
      assert months < 180;
    }
  }

  /** SwNationalIdentificationNumberProvider: a date of birth that properties
      may set and a sex that is stored but never read. */
  class SwNinProvider {
    const rng: RandomSource
    var dateOfBirth: Option<Date>
    var sex: Option<Sex>

    predicate Valid()
      reads this
    {
      dateOfBirth.Some? ==> ValidDate(dateOfBirth.value)
    }

    constructor(rng: RandomSource)
      ensures this.rng == rng && dateOfBirth == None && sex == None && Valid()
    {
      this.rng := rng;
      dateOfBirth := None;
      sex := None;
    }

    /** setIssueDate stores the date of birth. */
    method SetIssueDate(d: Date)
      requires ValidDate(d)
      modifies this
      ensures dateOfBirth == Some(d) && sex == old(sex) && Valid()
    {
      dateOfBirth := Some(d);
    }

    method SetSex(s: Sex)
      modifies this
      ensures sex == Some(s) && dateOfBirth == old(dateOfBirth)
    {
      sex := Some(s);
    }

    /** get: an absent date of birth is drawn within the last fifteen years;
        someone older than fifteen gets the eleven digits of `numeric` (the
        unseeded randomNumeric(11)), anyone else the empty string. */
    method Get(now: DateTime, numeric: string) returns (r: string)
      requires ValidDateTime(now) && Valid()
      requires |numeric| == NATIONAL_IDENTIFICATION_NUMBER_LENGTH && AllDigits(numeric)
      modifies this, rng
      ensures Valid() && dateOfBirth.Some? && sex == old(sex)
      ensures old(dateOfBirth).Some? ==> dateOfBirth == old(dateOfBirth)
      ensures old(dateOfBirth).None? ==> r == ""
      ensures OldEnough(dateOfBirth.value, now.date) ==> r == numeric
      ensures !OldEnough(dateOfBirth.value, now.date) ==> r == ""
      ensures r == "" || (|r| == NATIONAL_IDENTIFICATION_NUMBER_LENGTH && AllDigits(r))
    {
      if dateOfBirth.None? {
        var t := RandomDateInThePast(rng, now, VALIDITY_IN_YEARS);
        DateNotAfter(PastWindowStart(now, VALIDITY_IN_YEARS), t.value);
        dateOfBirth := Some(t.value.date);
        DrawnBirthDateTooYoung(t.value.date, now);
      }
      if YearsBetween(dateOfBirth.value, now.date) > VALIDITY_IN_YEARS {
        return numeric;
      }
      return "";
    }
  }
}
