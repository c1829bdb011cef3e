/** The window generateDateOfBirth draws a birth date from, and how it
    agrees with the age ChronoUnit.YEARS.between computes back from it. */
module BirthWindows {
  import opened Chars
  import opened Calendar

  /** maxDate: today shifted back by the age in whole years. */
  function LatestBirth(today: Date, age: int): (r: Date)
    requires ValidDate(today)
    ensures ValidDate(r) && r.year == today.year - age && r.month == today.month && r.day <= today.day
  {
    PlusYears(today, -age)
  }

  /** minDate as written: maxDate shifted back one more year, plus one day. */
  function EarliestBirthAsWritten(today: Date, age: int): (r: Date)
    requires ValidDate(today)
    ensures ValidDate(r)
    ensures EpochDay(r) == EpochDay(PlusYears(LatestBirth(today, age), -1)) + 1
  {
    PlusDays(PlusYears(LatestBirth(today, age), -1), 1)
  }

  /** minDate corrected: the day after today shifted back by age + 1 years,
      so that the year shift from February 29 is clamped only once. */
  function EarliestBirth(today: Date, age: int): (r: Date)
    requires ValidDate(today)
    ensures ValidDate(r)
    ensures EpochDay(r) == EpochDay(PlusYears(today, -(age + 1))) + 1
  {
    PlusDays(PlusYears(today, -(age + 1)), 1)
  }

  predicate InWindow(from: Date, to: Date, d: Date) {
    NotAfter(from, d) && NotAfter(d, to)
  }

  /** A date one year earlier lies before any date shifted back less. */
  lemma YearEarlierBefore(p: Date, x: Date)
    requires ValidDate(p) && ValidDate(x) && p.year < x.year
    ensures EpochDay(p) < EpochDay(x)
  {
    EpochDayMonotone(p, x);
  }

  /** The day after `p` comes no later than `x` when `p` is before `x`. */
  lemma NextDayNotAfter(p: Date, n: Date, x: Date)
    requires ValidDate(p) && ValidDate(n) && ValidDate(x)
    requires EpochDay(n) == EpochDay(p) + 1 && EpochDay(p) < EpochDay(x)
    ensures NotAfter(n, x)
  {
    EpochDayMonotone(n, x);
  }

  /** Both windows hold at least their latest date, so the draw between
      them never meets an empty range. */
  lemma BirthWindowNonEmpty(today: Date, age: int)
    requires ValidDate(today)
    ensures NotAfter(EarliestBirth(today, age), LatestBirth(today, age))
    ensures NotAfter(EarliestBirthAsWritten(today, age), LatestBirth(today, age))
  {
    var x := LatestBirth(today, age);
    var p := PlusYears(today, -(age + 1));
    YearEarlierBefore(p, x);
    NextDayNotAfter(p, EarliestBirth(today, age), x);
    var q := PlusYears(x, -1);
    YearEarlierBefore(q, x);
    NextDayNotAfter(q, EarliestBirthAsWritten(today, age), x);
  }

  /** A date after the day `n` follows comes after that day. */
  lemma AfterPreviousDay(p: Date, n: Date, d: Date)
    requires ValidDate(p) && ValidDate(n) && ValidDate(d)
    requires EpochDay(n) == EpochDay(p) + 1 && NotAfter(n, d)
    ensures Before(p, d)
  {
    EpochDayMonotone(n, d);
    EpochDayMonotone(p, d);
  }

  /** Whole years by month count: between 12a and 12a + 11 months make a years. */
  lemma WholeYears(adjusted: int, age: int)
    requires age >= 0 && 12 * age <= adjusted <= 12 * age + 11
    ensures JavaDiv(adjusted, 12) == age
  {
  }

  /** The age read back from a date after `p` (today shifted back by age + 1
      years) and not after `x` (today shifted back by age years) is the age. */
  lemma AgeBetweenShifts(today: Date, age: int, p: Date, x: Date, d: Date)
    requires ValidDate(today) && ValidDate(d) && age >= 0
    requires p == PlusYears(today, -(age + 1)) && x == PlusYears(today, -age)
    requires Before(p, d) && NotAfter(d, x)
    ensures YearsBetween(d, today) == age
  {
    var months := (today.year * 12 + today.month) - (d.year * 12 + d.month);
    var adjusted :=
      if months > 0 && today.day < d.day then months - 1
      else if months < 0 && today.day > d.day then months + 1
      else months;
    if d.year == today.year - age {
      assert 12 * age <= months <= 12 * age + 11;
      if d.month == today.month {
        assert adjusted == months;
      }
    } else {
      assert d.year == today.year - age - 1 && d.month >= today.month;
      if d.month == today.month {
        assert d.day > p.day;
        assert today.day < d.day;
      }
    }
    WholeYears(adjusted, age);
  }

  /** Every date of the corrected window is exactly `age` whole years before
      today: generateAge, run on the drawn date, gives back the age. */
  lemma AgeOfBirthInWindow(today: Date, age: int, dob: Date)
    requires ValidDate(today) && ValidDate(dob) && age >= 0
    requires InWindow(EarliestBirth(today, age), LatestBirth(today, age), dob)
    ensures YearsBetween(dob, today) == age
  {
    var p := PlusYears(today, -(age + 1));
    AfterPreviousDay(p, EarliestBirth(today, age), dob);
    AgeBetweenShifts(today, age, p, LatestBirth(today, age), dob);
  }

  /** Off February 29 the two windows coincide: shifting back one year and
      then `age` more clamps no day. */
  lemma WindowsAgreeOffLeapDay(today: Date, age: int)
    requires ValidDate(today) && !(today.month == 2 && today.day == 29)
    ensures EarliestBirthAsWritten(today, age) == EarliestBirth(today, age)
  {
    assert PlusYears(LatestBirth(today, age), -1) == PlusYears(today, -(age + 1));
  }

  /** Two days of one month one apart lie one epoch day apart. */
  lemma NextDayOfMonth(a: Date, b: Date)
    requires 1 <= a.month <= 12 && b.year == a.year && b.month == a.month && b.day == a.day + 1
    ensures EpochDay(b) == EpochDay(a) + 1
  {
  }

  /** 2024-02-29 shifted back 3 years and then 1 more is 2020-02-28. */
  lemma LeapDayShifts(today: Date, q: Date)
    requires today == Date(2024, 2, 29) && q == PlusYears(LatestBirth(today, 3), -1)
    ensures q == Date(2020, 2, 28)
  {
    assert LatestBirth(today, 3) == Date(2021, 2, 28);
  }

  /** The as-written window overreaches on a leap day: on 2024-02-29 an age
      of 3 opens the window at 2020-02-29, a date 4 whole years back. */
  lemma EarliestBirthAsWrittenOverreaches(today: Date, dob: Date)
    requires today == Date(2024, 2, 29) && dob == Date(2020, 2, 29)
    ensures ValidDate(today) && EarliestBirthAsWritten(today, 3) == dob
    ensures InWindow(EarliestBirthAsWritten(today, 3), LatestBirth(today, 3), dob)
    ensures YearsBetween(dob, today) == 4
  {
    var q := PlusYears(LatestBirth(today, 3), -1);
    LeapDayShifts(today, q);
    NextDayOfMonth(q, dob);
    var e := EarliestBirthAsWritten(today, 3);
    EpochDayMonotone(e, dob);
  }
}
