/** Proleptic Gregorian calendar arithmetic on naive date-times, as the
    streak engine uses it through Python's `datetime`: ordinal day numbers
    (`date()` differences), elapsed seconds (`datetime - datetime`), adding
    a week (`+ timedelta(days=7)`) and the ISO 8601 week date
    (`isocalendar()`). */
module Calendar {

  const MinYear := 1
  const MaxYear := 9999

  /** The fields of a naive date and time with whole seconds. */
  datatype DateTime = DateTime(year: int, month: int, day: int, hour: int, minute: int, second: int)
  {
    /** The values Python's `datetime` constructor accepts. */
    predicate Valid() {
      && MinYear <= year <= MaxYear
      && 1 <= month <= 12
      && 1 <= day <= DaysInMonth(year, month)
      && 0 <= hour < 24 && 0 <= minute < 60 && 0 <= second < 60
    }

    /** Day number of the date: 0001-01-01 is day 1 (`toordinal()`). */
    function Ordinal(): int
      requires 1 <= month <= 12
    {
      DaysBeforeYear(year) + DaysBeforeMonth(year, month) + day
    }

    function SecondOfDay(): int {
      hour * 3600 + minute * 60 + second
    }

    /** Seconds since 0001-01-01 00:00:00 minus one day; only differences matter. */
    function Seconds(): int
      requires 1 <= month <= 12
    {
      Ordinal() * 86400 + SecondOfDay()
    }
  }

  /** A Python `datetime` object: its fields are always in range. */
  type ValidDateTime = d: DateTime | d.Valid() witness DateTime(1, 1, 1, 0, 0, 0)

  predicate IsLeap(y: int) {
    y % 4 == 0 && (y % 100 != 0 || y % 400 == 0)
  }

  function DaysInYear(y: int): int {
    if IsLeap(y) then 366 else 365
  }

  function DaysInMonth(y: int, m: int): (n: int)
    requires 1 <= m <= 12
    ensures 28 <= n <= 31
  {
    if m == 2 then (if IsLeap(y) then 29 else 28)
    else if m == 4 || m == 6 || m == 9 || m == 11 then 30
    else 31
  }

  /** Days in the years 1 .. y - 1, year by year. */
  function DaysBeforeYear(y: int): int
    decreases y
  {
    if y <= 1 then 0 else DaysBeforeYear(y - 1) + DaysInYear(y - 1)
  }

  /** Days in the months of year `y` before month `m`: the table
      `_DAYS_BEFORE_MONTH`, plus the leap day after February. */
  function DaysBeforeMonth(y: int, m: int): int
    requires 1 <= m <= 12
  {
    var common := match m
      case 1 => 0    case 2 => 31   case 3 => 59   case 4 => 90
      case 5 => 120  case 6 => 151  case 7 => 181  case 8 => 212
      case 9 => 243  case 10 => 273 case 11 => 304 case _ => 334;
    common + (if m > 2 && IsLeap(y) then 1 else 0)
  }

  /** Day of the week of an ordinal day number, Monday being 0. */
  function Weekday(n: int): int {
    (n + 6) % 7
  }

  lemma {:induction false} MulAtLeast(k: int, d: int)
    requires k > 0 && d >= 1
    ensures k * d >= k
    decreases d
  {
    if d > 1 {
      MulAtLeast(k, d - 1);
      assert k * d == k * (d - 1) + k;
    }
  }

  lemma DivUnique(x: int, k: int, q: int, r: int)
    requires k > 0 && 0 <= r < k && x == k * q + r
    ensures x / k == q && x % k == r
  {
    var q', r' := x / k, x % k;
    assert x == k * q' + r';
    if q' > q {
      MulAtLeast(k, q' - q);
    } else if q' < q {
      MulAtLeast(k, q - q');
    }
  }

  /** Moving from x - 1 to x bumps x / k exactly when k divides x. */
  lemma DivStep(x: int, k: int)
    requires k > 0
    ensures x / k - (x - 1) / k == if x % k == 0 then 1 else 0
  {
    var q, r := (x - 1) / k, (x - 1) % k;
    assert x - 1 == k * q + r;
    if r == k - 1 {
      DivUnique(x, k, q + 1, 0);
    } else {
      DivUnique(x, k, q, r + 1);
    }
  }

  /** Python's closed form `_days_before_year`: 365 days a year plus the
      leap days of the Gregorian rule. */
  function DaysBeforeYearFormula(y: int): int {
    var p := y - 1;
    p * 365 + p / 4 - p / 100 + p / 400
  }

  /** The closed form grows by the length of each year. */
  lemma FormulaYearLength(y: int)
    ensures DaysBeforeYearFormula(y + 1) == DaysBeforeYearFormula(y) + DaysInYear(y)
  {
    DivStep(y, 4);
    DivStep(y, 100);
    DivStep(y, 400);
    if y % 100 == 0 {
      assert y == 100 * (y / 100);
      assert y == 4 * (25 * (y / 100));
    }
    if y % 400 == 0 {
      assert y == 400 * (y / 400);
      assert y == 100 * (4 * (y / 400));
    }
  }

  /** The year-by-year count agrees with Python's closed form. */
  lemma {:induction false} DaysBeforeYearClosedForm(y: int)
    requires y >= 1
    ensures DaysBeforeYear(y) == DaysBeforeYearFormula(y)
    decreases y
  {
    if y > 1 {
      DaysBeforeYearClosedForm(y - 1);
      FormulaYearLength(y - 1);
    }
  }

  lemma {:induction false} DaysBeforeYearMonotone(a: int, b: int)
    requires 1 <= a <= b
    ensures DaysBeforeYear(a) + 365 * (b - a) <= DaysBeforeYear(b)
    decreases b - a
  {
    if a < b {
      DaysBeforeYearMonotone(a, b - 1);
    }
  }

  /** A valid date lies within its own year. */
  lemma OrdinalWithinYear(d: ValidDateTime)
    ensures DaysBeforeYear(d.year) < d.Ordinal() <= DaysBeforeYear(d.year + 1)
  {
  }

  /** `d + timedelta(days=7)`: the date a week later, same time of day. A
      week never spans more than one month boundary. */
  function AddWeek(d: ValidDateTime): (r: ValidDateTime)
    requires d.year < MaxYear
    ensures r.Ordinal() == d.Ordinal() + 7
    ensures r.SecondOfDay() == d.SecondOfDay()
  {
    var monthLength := DaysInMonth(d.year, d.month);
    if d.day + 7 <= monthLength then d.(day := d.day + 7)
    else if d.month < 12 then d.(month := d.month + 1, day := d.day + 7 - monthLength)
    else d.(year := d.year + 1, month := 1, day := d.day + 7 - monthLength)
  }

  /** The Monday of ISO week 1 of a year whose January 1st is day `first`
      (`_isoweek1monday`): the week of January 1st when that is a Monday to
      Thursday, else the following week. */
  function Week1MondayFrom(first: int): int {
    var firstWeekday := Weekday(first);
    var monday := first - firstWeekday;
    if firstWeekday > 3 then monday + 7 else monday
  }

  lemma Week1MondayFromFacts(first: int)
    ensures Weekday(Week1MondayFrom(first)) == 0
    ensures Week1MondayFrom(first) <= first + 3 < Week1MondayFrom(first) + 7
  {
    var q := (first + 6) / 7;
    assert first + 6 == 7 * q + Weekday(first);
    var monday := first - Weekday(first);
    DivUnique(monday + 6, 7, q, 0);
    DivUnique(monday + 7 + 6, 7, q + 1, 0);
  }

  /** Ordinal of the Monday that starts ISO week 1 of year `y`. */
  function IsoWeek1Monday(y: int): int {
    Week1MondayFrom(DaysBeforeYear(y) + 1)
  }

  /** By ISO 8601, week 1 is the week that holds January 4th. */
  lemma IsoWeek1MondayFacts(y: int)
    ensures Weekday(IsoWeek1Monday(y)) == 0
    ensures IsoWeek1Monday(y) <= DaysBeforeYear(y) + 4 < IsoWeek1Monday(y) + 7
  {
    Week1MondayFromFacts(DaysBeforeYear(y) + 1);
  }

  /** ISO 8601 week date: ISO year, week 1..53 and weekday 1 (Monday) .. 7. */
  datatype IsoDate = IsoDate(isoYear: int, week: int, weekday: int)

  lemma Week1MondaysApart(y: int)
    requires y >= 1
    ensures IsoWeek1Monday(y + 1) - IsoWeek1Monday(y) == 364
         || IsoWeek1Monday(y + 1) - IsoWeek1Monday(y) == 371
  {
    IsoWeek1MondayFacts(y);
    IsoWeek1MondayFacts(y + 1);
    var a, b := IsoWeek1Monday(y), IsoWeek1Monday(y + 1);
    var ma, mb := (a + 6) / 7, (b + 6) / 7;
    assert a + 6 == 7 * ma && b + 6 == 7 * mb;
    assert 365 - 7 < b - a < 366 + 7;
    assert b - a == 7 * (mb - ma);
  }

  /** Whole weeks and days from a Monday to day `today`. */
  lemma WeeksFromMonday(today: int, monday: int)
    requires Weekday(monday) == 0
    ensures (today - monday) % 7 == Weekday(today)
    ensures today == monday + 7 * ((today - monday) / 7) + Weekday(today)
  {
    var mm, mt := (monday + 6) / 7, (today + 6) / 7;
    assert monday + 6 == 7 * mm;
    assert today + 6 == 7 * mt + Weekday(today);
    DivUnique(today - monday, 7, mt - mm, Weekday(today));
  }

  /** `date.isocalendar()` on day `today` of year `y`, given the Mondays of
      ISO week 1 of years y - 1, y and y + 1: week and day are counted from
      the Monday of year y, falling back to the previous ISO year before
      that Monday and moving to the next ISO year from its week 1 on. */
  function IsoWeekDate(y: int, today: int, previous: int, monday: int, next: int): IsoDate {
    var week, day := (today - monday) / 7, (today - monday) % 7;
    if week < 0 then
      IsoDate(y - 1, (today - previous) / 7 + 1, (today - previous) % 7 + 1)
    else if week >= 52 && today >= next then
      IsoDate(y + 1, 1, day + 1)
    else
      IsoDate(y, week + 1, day + 1)
  }

  function IsoCalendar(d: ValidDateTime): (r: IsoDate)
    ensures d.year - 1 <= r.isoYear <= d.year + 1
  {
    IsoWeekDate(d.year, d.Ordinal(),
                IsoWeek1Monday(d.year - 1), IsoWeek1Monday(d.year), IsoWeek1Monday(d.year + 1))
  }

  /** The arithmetic behind `IsoCalendarIsWeekDate`, for a day between the
      first day `first` and the last day `last` of year y. */
  lemma IsoWeekDateFacts(y: int, today: int, first: int, last: int,
                         previous: int, monday: int, next: int, next2: int)
    requires first <= today <= last
    requires Weekday(monday) == 0 && Weekday(next) == 0
    requires today < monday ==> Weekday(previous) == 0 && previous + 364 <= monday <= previous + 371
    requires monday <= first + 3 < monday + 7 && next <= last + 4 < next + 7
    requires monday + 364 <= next <= monday + 371 && next + 364 <= next2
    ensures var r := IsoWeekDate(y, today, previous, monday, next);
      && 1 <= r.week <= 53 && 1 <= r.weekday <= 7
      && r.weekday == Weekday(today) + 1
      && (r.isoYear == y - 1 ==> today == previous + 7 * (r.week - 1) + (r.weekday - 1))
      && (r.isoYear == y ==> today == monday + 7 * (r.week - 1) + (r.weekday - 1))
      && (r.isoYear == y + 1 ==> today == next + 7 * (r.week - 1) + (r.weekday - 1))
      && y - 1 <= r.isoYear <= y + 1
      && (r.isoYear == y - 1 ==> today < monday)
      && (r.isoYear == y ==> today < next)
      && (r.isoYear == y + 1 ==> today < next2)
  {
    WeeksFromMonday(today, monday);
    WeeksFromMonday(today, next);
    if today < monday {
      WeeksFromMonday(today, previous);
    }
  }

  /** The ISO week date of `d`: weekday 1..7 matching the day of the week,
      week 1..53 counted from the Monday of week 1 of an ISO year next to
      the calendar year. */
  lemma IsoCalendarIsWeekDate(d: ValidDateTime)
    ensures 1 <= IsoCalendar(d).week <= 53 && 1 <= IsoCalendar(d).weekday <= 7
    ensures IsoCalendar(d).weekday == Weekday(d.Ordinal()) + 1
    ensures d.Ordinal()
         == IsoWeek1Monday(IsoCalendar(d).isoYear) + 7 * (IsoCalendar(d).week - 1)
            + (IsoCalendar(d).weekday - 1)
    ensures d.year - 1 <= IsoCalendar(d).isoYear <= d.year + 1
    ensures d.Ordinal() < IsoWeek1Monday(IsoCalendar(d).isoYear + 1)
  {
    var y := d.year;
    OrdinalWithinYear(d);
    IsoWeek1MondayFacts(y);
    IsoWeek1MondayFacts(y + 1);
    Week1MondaysApart(y);
    Week1MondaysApart(y + 1);
    if y > 1 {
      IsoWeek1MondayFacts(y - 1);
      Week1MondaysApart(y - 1);
    }
    IsoWeekDateFacts(y, d.Ordinal(), DaysBeforeYear(y) + 1, DaysBeforeYear(y + 1),
                     IsoWeek1Monday(y - 1), IsoWeek1Monday(y), IsoWeek1Monday(y + 1),
                     IsoWeek1Monday(y + 2));
  }
}
