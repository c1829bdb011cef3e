/** DateProducer: random dates and date-times inside ranges derived from the
    current time. The clock reading `now` is a parameter; draws come from the
    shared random source. Date-times are converted at UTC. */
module DateProducer {
  import opened Wrappers
  import opened Calendar
  import opened Random

  /** SECONDS_BEFORE_TO_BE_IN_THE_PAST */
  const SECONDS_BEFORE_TO_BE_IN_THE_PAST: int := 1
  const DEFAULT_FUTURE_YEARS: int := 100

  /** java.time.Period restricted to years and months (no generator code
      builds a Period with days). */
  datatype Period = Period(years: int, months: int)

  /** LocalDateTime.plus(Period): a pure year shift when there are no months,
      otherwise a shift by the total number of months. */
  function PlusPeriod(t: DateTime, p: Period): (r: DateTime)
    requires ValidDateTime(t)
    ensures ValidDateTime(r) && r.milli == t.milli
  {
    if p.months == 0 then TimePlusYears(t, p.years)
    else TimePlusMonths(t, p.years * 12 + p.months)
  }

  /** The window randomDateInThePast(n) draws from: from `n` years ago to one
      second ago. */
  function PastWindowStart(now: DateTime, n: int): DateTime
    requires ValidDateTime(now)
  {
    TimePlusYears(now, -n)
  }

  function PastWindowEnd(now: DateTime): DateTime
    requires ValidDateTime(now)
  {
    TimeMinusSeconds(now, SECONDS_BEFORE_TO_BE_IN_THE_PAST)
  }

  /** The past window is non-empty exactly when at least one year is allowed. */
  lemma PastWindowNonEmpty(now: DateTime, n: int)
    requires ValidDateTime(now) && n >= 0
    ensures EpochMilli(PastWindowStart(now, n)) <= EpochMilli(PastWindowEnd(now)) <==> n >= 1
  {
    var start := PastWindowStart(now, n);
    if n >= 1 {
      assert Before(start.date, now.date);
      EpochDayMonotone(start.date, now.date);
    } else {
      assert start.date == now.date;
    }
  }

  /** January 1 of `year` at 00:00. */
  function FirstMomentOfYear(year: int): (t: DateTime)
    ensures ValidDateTime(t)
  {
    DateTime(Date(year, 1, 1), 0)
  }

  /** December 31 of `year` at 23:59. */
  function LastMinuteOfYear(year: int): (t: DateTime)
    ensures ValidDateTime(t)
  {
    DateTime(Date(year, 12, 31), 23 * 3_600_000 + 59 * 60_000)
  }

  /** The year window [Jan 1 of from 00:00, Dec 31 of to 23:59] is non-empty iff from <= to. */
  lemma YearWindowNonEmpty(fromYear: int, toYear: int)
    ensures EpochMilli(FirstMomentOfYear(fromYear)) <= EpochMilli(LastMinuteOfYear(toYear))
            <==> fromYear <= toYear
  {
    EpochMilliMonotone(FirstMomentOfYear(fromYear), LastMinuteOfYear(toYear));
    EpochMilliMonotone(LastMinuteOfYear(toYear), FirstMomentOfYear(fromYear));
  }

  /** randomDateBetweenTwoDates(LocalDate, LocalDate): an epoch day drawn
      between the two, as a civil date. */
  method RandomDateBetweenDates(rng: RandomSource, from: Date, to: Date) returns (r: Result<Date>)
    requires ValidDate(from) && ValidDate(to)
    modifies rng
    ensures Before(to, from) ==> r == Failure(BadRange)
    ensures NotAfter(from, to) ==>
              r.Success? && ValidDate(r.value)
              && EpochDay(from) <= EpochDay(r.value) <= EpochDay(to)
              && NotAfter(from, r.value) && NotAfter(r.value, to)
  {
    EpochDayMonotone(from, to);
    var e := rng.CheckedBetween(EpochDay(from), EpochDay(to));
    if e.Failure? {
      return Failure(e.error);
    }
    OfEpochDayBetween(from, to, e.value);
    r := Success(OfEpochDay(e.value));
  }

  /** randomDateBetweenTwoDates(LocalDateTime, LocalDateTime): an epoch
      millisecond drawn between the two, at UTC. */
  method RandomDateBetweenTimes(rng: RandomSource, from: DateTime, to: DateTime) returns (r: Result<DateTime>)
    requires ValidDateTime(from) && ValidDateTime(to)
    modifies rng
    ensures EpochMilli(from) > EpochMilli(to) ==> r == Failure(BadRange)
    ensures EpochMilli(from) <= EpochMilli(to) ==>
              r.Success? && ValidDateTime(r.value)
              && EpochMilli(from) <= EpochMilli(r.value) <= EpochMilli(to)
  {
    var ms := rng.CheckedBetween(EpochMilli(from), EpochMilli(to));
    if ms.Failure? {
      return Failure(ms.error);
    }
    r := Success(OfEpochMilli(ms.value));
  }

  /** randomDateInThePast(n): n must not be negative; the result lies
      between n years ago and one second ago. */
  method RandomDateInThePast(rng: RandomSource, now: DateTime, maxYearsEarlier: int)
    returns (r: Result<DateTime>)
    requires ValidDateTime(now)
    modifies rng
    ensures maxYearsEarlier < 0 ==> r.Failure? && r.error.IllegalArgument?
    ensures maxYearsEarlier == 0 ==> r == Failure(BadRange)
    ensures maxYearsEarlier >= 1 ==>
              r.Success? && ValidDateTime(r.value)
              && EpochMilli(PastWindowStart(now, maxYearsEarlier)) <= EpochMilli(r.value)
              && EpochMilli(r.value) <= EpochMilli(now) - SECONDS_BEFORE_TO_BE_IN_THE_PAST * SECOND_MS
  {
    if maxYearsEarlier < 0 {
      return Failure(IllegalArgument("maxYearsEarlier has to be >= 0"));
    }
    PastWindowNonEmpty(now, maxYearsEarlier);
    r := RandomDateBetweenTimes(rng, PastWindowStart(now, maxYearsEarlier), PastWindowEnd(now));
  }

  /** randomDateBetweenYearAndNow(y) = randomDateInThePast(current year - y). */
  method RandomDateBetweenYearAndNow(rng: RandomSource, now: DateTime, fromYear: int)
    returns (r: Result<DateTime>)
    requires ValidDateTime(now)
    modifies rng
    ensures fromYear > now.date.year ==> r.Failure?
    ensures fromYear == now.date.year ==> r == Failure(BadRange)
    ensures fromYear < now.date.year ==>
              r.Success? && ValidDateTime(r.value)
              && EpochMilli(PastWindowStart(now, now.date.year - fromYear)) <= EpochMilli(r.value)
              && EpochMilli(r.value) < EpochMilli(now)
  {
    r := RandomDateInThePast(rng, now, now.date.year - fromYear);
  }

  /** randomDateBetweenYears(from, to): from must not exceed to; the result
      lies between Jan 1 of `from` at 00:00 and Dec 31 of `to` at 23:59. */
  method RandomDateBetweenYears(rng: RandomSource, fromYear: int, toYear: int) returns (r: Result<DateTime>)
    modifies rng
    ensures fromYear > toYear ==> r.Failure? && r.error.IllegalArgument?
    ensures fromYear <= toYear ==>
              r.Success? && ValidDateTime(r.value)
              && EpochMilli(FirstMomentOfYear(fromYear)) <= EpochMilli(r.value)
              && EpochMilli(r.value) <= EpochMilli(LastMinuteOfYear(toYear))
  {
    if fromYear > toYear {
      return Failure(IllegalArgument("fromYear has to be <= toYear"));
    }
    YearWindowNonEmpty(fromYear, toYear);
    r := RandomDateBetweenTimes(rng, FirstMomentOfYear(fromYear), LastMinuteOfYear(toYear));
  }

  /** randomDateBetweenNowAndFuturePeriod(p): between now and now + p. */
  method RandomDateBetweenNowAndFuturePeriod(rng: RandomSource, now: DateTime, p: Period)
    returns (r: Result<DateTime>)
    requires ValidDateTime(now)
    modifies rng
    ensures EpochMilli(now) <= EpochMilli(PlusPeriod(now, p)) ==>
              r.Success? && ValidDateTime(r.value)
              && EpochMilli(now) <= EpochMilli(r.value) <= EpochMilli(PlusPeriod(now, p))
    ensures EpochMilli(now) > EpochMilli(PlusPeriod(now, p)) ==> r == Failure(BadRange)
  {
    r := RandomDateBetweenTimes(rng, now, PlusPeriod(now, p));
  }

  /** randomDateInTheFuture(years), and the no-argument form with 100 years. */
  method RandomDateInTheFuture(rng: RandomSource, now: DateTime, years: Option<int>)
    returns (r: Result<DateTime>)
    requires ValidDateTime(now)
    modifies rng
    ensures years.GetOr(DEFAULT_FUTURE_YEARS) >= 0 ==>
              r.Success? && ValidDateTime(r.value)
              && EpochMilli(now) <= EpochMilli(r.value)
              && EpochMilli(r.value) <= EpochMilli(TimePlusYears(now, years.GetOr(DEFAULT_FUTURE_YEARS)))
    ensures years.GetOr(DEFAULT_FUTURE_YEARS) < 0 ==> r == Failure(BadRange)
  {
    var n := years.GetOr(DEFAULT_FUTURE_YEARS);
    FutureWindowNonEmpty(now, n);
    r := RandomDateBetweenNowAndFuturePeriod(rng, now, Period(n, 0));
  }

  /** A future window of whole years is non-empty exactly when the number of
      years is not negative. */
  lemma FutureWindowNonEmpty(now: DateTime, years: int)
    requires ValidDateTime(now)
    ensures EpochMilli(now) <= EpochMilli(TimePlusYears(now, years)) <==> years >= 0
  {
    var later := TimePlusYears(now, years);
    if years > 0 {
      assert Before(now.date, later.date);
    } else if years < 0 {
      assert Before(later.date, now.date);
    }
    EpochMilliMonotone(later, now);
    EpochMilliMonotone(now, later);
  }
}
