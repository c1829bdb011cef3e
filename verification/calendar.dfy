/** The ISO proleptic Gregorian calendar of java.time: civil dates, the epoch
    day of LocalDate, date-times at UTC as epoch milliseconds, and the
    calendar arithmetic the generator uses (minusYears, plusMonths, whole
    years between two dates). */
module Calendar {
  import opened Chars

  datatype Date = Date(year: int, month: int, day: int)

  /** A LocalDateTime: a date plus the milliseconds since midnight. */
  datatype DateTime = DateTime(date: Date, milli: int)

  const DAY_MS: int := 86_400_000
  const SECOND_MS: int := 1000

  predicate IsLeap(y: int) {
    y % 4 == 0 && (y % 100 != 0 || y % 400 == 0)
  }

  function DaysInMonth(y: int, m: int): (n: int)
    requires 1 <= m <= 12
    ensures 28 <= n <= 31
  {
    if m == 2 then (if IsLeap(y) then 29 else 28)
    else if m == 4 || m == 6 || m == 9 || m == 11 then 30
    else 31
  }

  function DaysInYear(y: int): int {
    if IsLeap(y) then 366 else 365
  }

  predicate ValidDate(d: Date) {
    1 <= d.month <= 12 && 1 <= d.day <= DaysInMonth(d.year, d.month)
  }

  predicate ValidDateTime(t: DateTime) {
    ValidDate(t.date) && 0 <= t.milli < DAY_MS
  }

  /** Strict chronological order of civil dates. */
  predicate Before(a: Date, b: Date) {
    a.year < b.year
    || (a.year == b.year && a.month < b.month)
    || (a.year == b.year && a.month == b.month && a.day < b.day)
  }

  predicate NotAfter(a: Date, b: Date) {
    Before(a, b) || a == b
  }

  /** Number of leap years among the years before `y` (counted from year 0). */
  function LeapsBefore(y: int): int {
    (y - 1) / 4 - (y - 1) / 100 + (y - 1) / 400
  }

  /** Epoch day of January 1 of year `y` (1970-01-01 is day 0). */
  function YearStart(y: int): int {
    365 * (y - 1970) + LeapsBefore(y) - LeapsBefore(1970)
  }

  /** Days of year `y` before the first of month `m`. */
  function MonthStart(y: int, m: int): int
    requires 1 <= m <= 12
  {
    (if m == 1 then 0 else if m == 2 then 31 else if m == 3 then 59
     else if m == 4 then 90 else if m == 5 then 120 else if m == 6 then 151
     else if m == 7 then 181 else if m == 8 then 212 else if m == 9 then 243
     else if m == 10 then 273 else if m == 11 then 304 else 334)
    + (if m > 2 && IsLeap(y) then 1 else 0)
  }

  /** LocalDate.toEpochDay. */
  function EpochDay(d: Date): int
    requires 1 <= d.month <= 12
  {
    YearStart(d.year) + MonthStart(d.year, d.month) + d.day - 1
  }

  lemma LeapsStep(y: int)
    ensures LeapsBefore(y + 1) == LeapsBefore(y) + (if IsLeap(y) then 1 else 0)
  {
    assert y / 4 - (y - 1) / 4 == (if y % 4 == 0 then 1 else 0);
    assert y / 100 - (y - 1) / 100 == (if y % 100 == 0 then 1 else 0);
    assert y / 400 - (y - 1) / 400 == (if y % 400 == 0 then 1 else 0);
    assert y % 100 == 0 ==> y % 4 == 0;
    assert y % 400 == 0 ==> y % 100 == 0;
  }

  lemma YearStartStep(y: int)
    ensures YearStart(y + 1) == YearStart(y) + DaysInYear(y)
  {
    LeapsStep(y);
  }

  lemma MonthStartStep(y: int, m: int)
    requires 1 <= m <= 12
    ensures m < 12 ==> MonthStart(y, m + 1) == MonthStart(y, m) + DaysInMonth(y, m)
    ensures m == 12 ==> MonthStart(y, m) + DaysInMonth(y, m) == DaysInYear(y)
  {
  }

  lemma MonthStartBelowYear(y: int, m: int)
    requires 1 <= m <= 12
    ensures 0 <= MonthStart(y, m)
    ensures MonthStart(y, m) + DaysInMonth(y, m) <= DaysInYear(y)
  {
  }

  lemma MonthStartOrder(y: int, m1: int, m2: int)
    requires 1 <= m1 < m2 <= 12
    ensures MonthStart(y, m1) + DaysInMonth(y, m1) <= MonthStart(y, m2)
  {
  }

  lemma {:induction false} YearStartOrder(a: int, b: int)
    requires a <= b
    ensures YearStart(a) + 365 * (b - a) <= YearStart(b)
    ensures YearStart(b) <= YearStart(a) + 366 * (b - a)
    decreases b - a
  {
    if a < b {
      YearStartStep(a);
      YearStartOrder(a + 1, b);
    }
  }

  /** The year whose span of epoch days contains `e`, searching upward from `y`. */
  function FindYear(e: int, y: int): (r: int)
    requires YearStart(y) <= e
    ensures YearStart(r) <= e < YearStart(r + 1)
    decreases e - YearStart(y)
  {
    YearStartStep(y);
    if e < YearStart(y + 1) then y else FindYear(e, y + 1)
  }

  /** The month of year `y` holding day-of-year `r` (0-based), searching upward from `m`. */
  function FindMonth(y: int, r: int, m: int): (k: int)
    requires 1 <= m <= 12 && MonthStart(y, m) <= r < DaysInYear(y)
    ensures m <= k <= 12
    ensures MonthStart(y, k) <= r < MonthStart(y, k) + DaysInMonth(y, k)
    decreases 12 - m
  {
    MonthStartStep(y, m);
    if r < MonthStart(y, m) + DaysInMonth(y, m) then m else FindMonth(y, r, m + 1)
  }

  /** LocalDate.ofEpochDay: the civil date of an epoch day. */
  function OfEpochDay(e: int): (d: Date)
    ensures ValidDate(d) && EpochDay(d) == e
  {
    var y0 := if e >= 0 then 1970 else 1970 + e / 365 - 1;
    YearStartOrder(y0, 1970);
    var y := FindYear(e, y0);
    YearStartStep(y);
    var m := FindMonth(y, e - YearStart(y), 1);
    Date(y, m, e - YearStart(y) - MonthStart(y, m) + 1)
  }

  lemma DateEndsBeforeNextYear(d: Date)
    requires ValidDate(d)
    ensures YearStart(d.year) <= EpochDay(d) < YearStart(d.year + 1)
  {
    MonthStartBelowYear(d.year, d.month);
    YearStartStep(d.year);
  }

  /** Epoch days are ordered exactly as civil dates are. */
  lemma EpochDayMonotone(a: Date, b: Date)
    requires ValidDate(a) && ValidDate(b)
    ensures Before(a, b) <==> EpochDay(a) < EpochDay(b)
    ensures a == b <==> EpochDay(a) == EpochDay(b)
  {
    if a.year < b.year {
      DateEndsBeforeNextYear(a);
      DateEndsBeforeNextYear(b);
      YearStartOrder(a.year + 1, b.year);
    } else if b.year < a.year {
      DateEndsBeforeNextYear(a);
      DateEndsBeforeNextYear(b);
      YearStartOrder(b.year + 1, a.year);
    } else if a.month < b.month {
      MonthStartOrder(a.year, a.month, b.month);
    } else if b.month < a.month {
      MonthStartOrder(a.year, b.month, a.month);
    }
  }

  /** LocalDate.ofEpochDay undoes LocalDate.toEpochDay. */
  lemma OfEpochDayInverse(d: Date)
    requires ValidDate(d)
    ensures OfEpochDay(EpochDay(d)) == d
  {
    EpochDayMonotone(d, OfEpochDay(EpochDay(d)));
  }

  /** A date drawn between two epoch days lies between the two civil dates. */
  lemma OfEpochDayBetween(from: Date, to: Date, e: int)
    requires ValidDate(from) && ValidDate(to)
    requires EpochDay(from) <= e <= EpochDay(to)
    ensures NotAfter(from, OfEpochDay(e)) && NotAfter(OfEpochDay(e), to)
  {
    EpochDayMonotone(from, OfEpochDay(e));
    EpochDayMonotone(OfEpochDay(e), to);
  }

  /** Splitting an epoch millisecond into its day and its time of day. */
  lemma DayAndMilli(e: int, m: int)
    requires 0 <= m < DAY_MS
    ensures (e * DAY_MS + m) / DAY_MS == e && (e * DAY_MS + m) % DAY_MS == m
  {
  }

  /** LocalDateTime.toInstant(UTC).toEpochMilli. */
  function EpochMilli(t: DateTime): int
    requires 1 <= t.date.month <= 12
  {
    EpochDay(t.date) * DAY_MS + t.milli
  }

  /** LocalDateTime.ofInstant(Instant.ofEpochMilli(ms), UTC). */
  function OfEpochMilli(ms: int): (t: DateTime)
    ensures ValidDateTime(t) && EpochMilli(t) == ms
  {
    DateTime(OfEpochDay(ms / DAY_MS), ms % DAY_MS)
  }

  lemma OfEpochMilliInverse(t: DateTime)
    requires ValidDateTime(t)
    ensures OfEpochMilli(EpochMilli(t)) == t
  {
    var e := EpochDay(t.date);
    var ms := EpochMilli(t);
    DayAndMilli(e, t.milli);
    assert ms / DAY_MS == e && ms % DAY_MS == t.milli;
    OfEpochDayInverse(t.date);
  }

  /** Strict chronological order of date-times. */
  predicate TimeBefore(a: DateTime, b: DateTime) {
    Before(a.date, b.date) || (a.date == b.date && a.milli < b.milli)
  }

  lemma EpochMilliMonotone(a: DateTime, b: DateTime)
    requires ValidDateTime(a) && ValidDateTime(b)
    ensures TimeBefore(a, b) <==> EpochMilli(a) < EpochMilli(b)
  {
    EpochDayMonotone(a.date, b.date);
  }

  /** A date-time not later than another lies on a date not later than the other's. */
  lemma DateNotAfter(a: DateTime, b: DateTime)
    requires ValidDateTime(a) && ValidDateTime(b)
    requires EpochMilli(a) <= EpochMilli(b)
    ensures NotAfter(a.date, b.date)
  {
    EpochMilliMonotone(b, a);
  }

  /** The day clamped to the length of the target month, as java.time does
      when a month or year shift lands on a shorter month. */
  function Clamp(y: int, m: int, day: int): int
    requires 1 <= m <= 12
  {
    if day > DaysInMonth(y, m) then DaysInMonth(y, m) else day
  }

  /** LocalDate.minusYears / plusYears: same month and day, February 29 clamped. */
  function PlusYears(d: Date, n: int): (r: Date)
    requires ValidDate(d)
    ensures ValidDate(r) && r.year == d.year + n && r.month == d.month
    ensures r.day == d.day || (d.month == 2 && d.day == 29 && r.day == 28 && !IsLeap(r.year))
  {
    Date(d.year + n, d.month, Clamp(d.year + n, d.month, d.day))
  }

  /** LocalDate.plusMonths: the month shifted with carry into the year, day clamped. */
  function PlusMonths(d: Date, n: int): (r: Date)
    requires ValidDate(d)
    ensures ValidDate(r)
    ensures r.year * 12 + r.month == d.year * 12 + d.month + n
    ensures r.day <= d.day
  {
    var total := d.year * 12 + (d.month - 1) + n;
    var y := total / 12;
    var m := total % 12 + 1;
    Date(y, m, Clamp(y, m, d.day))
  }

  /** LocalDate.plusDays. */
  function PlusDays(d: Date, n: int): (r: Date)
    requires ValidDate(d)
    ensures ValidDate(r) && EpochDay(r) == EpochDay(d) + n
  {
    OfEpochDay(EpochDay(d) + n)
  }

  /** ChronoUnit.YEARS.between(a, b) on dates: whole months from a to b,
      one less when the day of month has not been reached, divided by 12
      with Java's truncation. */
  function YearsBetween(a: Date, b: Date): int {
    var months := (b.year * 12 + b.month) - (a.year * 12 + a.month);
    var adjusted :=
      if months > 0 && b.day < a.day then months - 1
      else if months < 0 && b.day > a.day then months + 1
      else months;
    JavaDiv(adjusted, 12)
  }

  /** A date-time shifted by years: the date shifted, the time of day kept. */
  function TimePlusYears(t: DateTime, n: int): (r: DateTime)
    requires ValidDateTime(t)
    ensures ValidDateTime(r) && r.milli == t.milli && r.date == PlusYears(t.date, n)
  {
    DateTime(PlusYears(t.date, n), t.milli)
  }

  function TimePlusMonths(t: DateTime, n: int): (r: DateTime)
    requires ValidDateTime(t)
    ensures ValidDateTime(r) && r.milli == t.milli && r.date == PlusMonths(t.date, n)
  {
    DateTime(PlusMonths(t.date, n), t.milli)
  }

  /** LocalDateTime.plusDays / minusDays. */
  function TimePlusDays(t: DateTime, n: int): (r: DateTime)
    requires ValidDateTime(t)
    ensures ValidDateTime(r) && EpochMilli(r) == EpochMilli(t) + n * DAY_MS
  {
    DateTime(PlusDays(t.date, n), t.milli)
  }

  /** LocalDateTime.minusSeconds. */
  function TimeMinusSeconds(t: DateTime, n: int): (r: DateTime)
    requires ValidDateTime(t)
    ensures ValidDateTime(r) && EpochMilli(r) == EpochMilli(t) - n * SECOND_MS
  {
    OfEpochMilli(EpochMilli(t) - n * SECOND_MS)
  }

  /** truncatedTo(ChronoUnit.DAYS): midnight of the same date. */
  function AtMidnight(t: DateTime): (r: DateTime)
    requires ValidDateTime(t)
    ensures ValidDateTime(r) && r.date == t.date && r.milli == 0
    ensures EpochMilli(r) == EpochMilli(t) - EpochMilli(t) % DAY_MS
  {
    DayAndMilli(EpochDay(t.date), t.milli);
    DateTime(t.date, 0)
  }

  /** DateTimeFormatter "uu": the last two digits of the proleptic year. */
  function TwoDigitYear(y: int): (s: string)
    ensures |s| == 2 && AllDigits(s)
    ensures ParseDigits(s) == YearOfCentury(y)
  {
    ZeroPadSpec(YearOfCentury(y), 2);
    ZeroPad(YearOfCentury(y), 2)
  }

  /** The last two decimal digits of the year's magnitude. */
  function YearOfCentury(y: int): (v: nat)
    ensures v < 100
  {
    (if y < 0 then -y else y) % 100
  }

  /** DateTimeFormatter "MM" and "dd" (and "%02d"): two digits. */
  function TwoDigits(n: int): (s: string)
    requires 0 <= n <= 99
    ensures |s| == 2 && AllDigits(s) && ParseDigits(s) == n
  {
    ZeroPadSpec(n, 2);
    ZeroPad(n, 2)
  }
}
