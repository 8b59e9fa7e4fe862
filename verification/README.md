# Habit tracker streak engine

A Dafny model of the analytics core of a command-line habit tracker
(`application/analytics.py`). A habit has an id, a periodicity (`daily`,
`weekly` or `monthly`) and a list of checkoff timestamps stored as text,
`YYYY-MM-DD HH:MM:SS`. The engine:

- converts a habit's checkoffs into instants placed behind a fixed
  sentinel instant far in the past (`convert_date_and_time_for_calculation`);
- walks those instants with one boundary rule per periodicity,
  keeping an anchor (the last checkoff that counted), the current count,
  the running maximum and the status of the latest checkoff: 1 completed,
  2 already logged, 3 broken (`calc_streak_daily`, `calc_streak_weekly`,
  `calc_streak_monthly`);
- reports, for one habit, the current or the maximum streak with its
  status, or -1 when the streak is 0 (`calculation_of_streaks`);
- finds the largest maximum streak over all habits and the ids of the
  habits that reach it (`calculate_longest_streak_of_all`).

Modules:

- `Wrappers`: `Option` and `Result`.
- `Calendar`: proleptic Gregorian date-times.
  - The day ordinal, weekday and ISO calendar follow Python's `datetime`.
  - `DaysBeforeYear` is recursive and comes with a closed-form lemma.
  - ISO week numbers are proved to lie in 1..53.
- `Timestamp`: the stored text form of a checkoff, with its parser and
  printer, proved inverse to each other.
- `Normalizer`: the conversion loop, proved against `Normalized`.
- `Streak`: the three walkers.
  - Each walker is a method with the source's loop. One pass of each loop is
    a step method with the source's branches.
  - Each walker is proved to compute `Walk`, a fold of a boundary rule
    (`Classify`) and its effect on the state (`Apply`).
- `StreakFacts`: properties of that fold.
  - The invariants the walk keeps and the running maximum.
  - A day-by-day meaning for the daily count.
  - How the walk starts and how same-week checkoffs are treated.
  - The year-boundary behaviour of the weekly and monthly rules, written as
    the code does it.
- `Analytics`: per-habit dispatch and reporting, and the aggregate over all
  habits. Each is a method proved against a specification function, with
  lemmas about that function.
- `SeededDatabase`: the test database of the unit tests, five habits and
  their checkoff rows. Each habit's walk is followed row by row to the
  streaks and statuses the tests expect, and then the aggregate over all
  five habits.

Where the docstrings and the code disagree, the model follows the code:

- The daily "already logged" guard uses a hard-coded 4 hours, whatever
  `delta_hours` is.
- A monthly checkoff in January of the year after the anchor always counts,
  even after a gap of months.
- The weekly rule compares calendar years, not ISO years. So a checkoff in
  ISO week 1 that still falls in December is left unchanged, and the next
  week then breaks the streak.

## Model

| member | source | states |
|---|---|---|
| Normalizer.ConvertForCalculation | application/analytics.py:12-42 | Computes the sentinel-led list. It succeeds exactly when every stored row parses. The list is one longer than the rows, starts with the sentinel, and holds each row's instant in order. A failure names the first row that does not parse. |
| Normalizer.ParseAllSuccess | application/analytics.py:36-39 | Parsing all rows succeeds if and only if each row parses, and the result holds every row's instant at the row's index. |
| Normalizer.ParseAllFirstFailure | application/analytics.py:36-39 | When the conversion fails, the reported row is one that does not parse, and every row before it parses. |
| Normalizer.Normalized | application/analytics.py:31-33 | The normalized list exists exactly when all rows parse; it has one more element than the rows and starts with the sentinel. |
| Normalizer.SentinelIsTimestamp | application/analytics.py:32 | The sentinel 1990-04-03 00:00:01 is `fromtimestamp(639093601)` read two hours ahead of UTC: 639093601 seconds after the epoch plus 7200. |
| Normalizer.NormalizeStored | application/analytics.py:29-39 | Rows written in the stored format from any date-times convert back to exactly those date-times, behind the sentinel. |
| Timestamp.ParseFormat | application/analytics.py:29 | Parsing the stored text of any valid date-time with `%Y-%m-%d %X` gives back that date-time. |
| Timestamp.Parse | application/analytics.py:38 | A string the model's parser accepts is 19 characters long, with `-`, `-`, a space, `:` and `:` in their places. |
| Timestamp.FormatParse | application/analytics.py:38 | Every string the parser accepts is exactly the stored text of the date-time it yields, so the parser accepts only the canonical 19-character form. |
| Timestamp.DigitsValue | application/analytics.py:38 | Zero-padded decimal digits of a number below 10^width read back as that number. |
| Timestamp.ValueDigits | application/analytics.py:38 | A string of decimal digits is the zero-padded rendering of its own value. |
| Streak.StepDaily | application/analytics.py:86-120 | One pass of the daily loop has the effect `Apply` gives for the daily transition of the checkoff against the anchor. |
| Streak.StepWeekly | application/analytics.py:169-267 | One pass of the weekly loop has the effect `Apply` gives for the weekly transition, including the fall-through that changes nothing. |
| Streak.StepMonthly | application/analytics.py:315-387 | One pass of the monthly loop has the effect `Apply` gives for the monthly transition. |
| Streak.CalcStreakDaily | application/analytics.py:45-123 | Returns the final state of the daily walk over the whole list: its maximum in maximum mode, otherwise its current count, together with the last status. |
| Streak.CalcStreakWeekly | application/analytics.py:126-270 | Returns the same for the weekly walk. |
| Streak.CalcStreakMonthly | application/analytics.py:273-390 | Returns the same for the monthly walk. |
| Streak.WalkStep | application/analytics.py:83-120 | Each further checkoff advances the walk by exactly one classification against the current anchor, followed by its effect. |
| StreakFacts.ClassifyDailyMeaning | application/analytics.py:99-116 | A daily checkoff counts exactly when it is on the next calendar day and at least `delta_hours` later. Otherwise it is already logged exactly when it is on the same day or under 4 hours later, and it breaks the streak in every other case. The daily rule never ignores a checkoff. |
| StreakFacts.ClassifyWeeklyMeaning | application/analytics.py:169-263 | A weekly checkoff is already logged exactly when it has the anchor's ISO week number, in the same or the next calendar year. It counts exactly when it is at least `delta_hours` later and either in the next week number of the same year, or in week 1 of the next year while the anchor is not in week 1 and the date seven days after the anchor is in week 1. It resets exactly when it is in a later, non-adjacent week number of the same year, or in another calendar year without being logged or counted. It is ignored only within the anchor's calendar year, and the weekly rule never restarts. |
| StreakFacts.ClassifyMonthlyMeaning | application/analytics.py:315-383 | A monthly checkoff is already logged exactly when it is in the anchor's month of the same year. It counts exactly when it is in the next month of the same year and at least `delta_hours` later, or in any January of the next year. It resets exactly when it is in a later, non-adjacent month of the same year, or in a month other than January of the next year. It restarts exactly when it is neither in the anchor's year nor the next. It changes nothing exactly when it is in an earlier month of the same year, or in the next month but less than `delta_hours` later, where the branches of lines 317-348 all fall through. |
| StreakFacts.ApplyEffect | application/analytics.py:102-120 | A counted checkoff adds one to the count, becomes the anchor and sets status 1. An already-logged one keeps the count and the anchor and sets status 2. A break sets the count to 1 at the checkoff, with status 3 when the anchor is a real checkoff and status 1 when it is still the sentinel. A restart sets the count to 1 at the checkoff with status 1. An ignored one changes nothing. The maximum becomes the count whenever the count exceeds it. |
| StreakFacts.DailySameDayIsLogged | application/analytics.py:110-116 | A second checkoff on the anchor's calendar day is already logged for any `delta_hours`, and leaves count, maximum and anchor as they were. |
| StreakFacts.MonthlySameMonthIsLogged | application/analytics.py:331-335 | A second checkoff in the anchor's calendar month is already logged for any `delta_hours`, and leaves count, maximum and anchor as they were. |
| StreakFacts.ApplyCoherent | application/analytics.py:86-120 | Every transition keeps the walk invariant: count <= maximum <= steps taken; a broken status has count 1; a completed one has count >= 1; with count 0 the anchor is still the sentinel; otherwise it is one of the checkoffs seen. |
| StreakFacts.WalkCoherent | application/analytics.py:83-120 | The walk invariant holds after every prefix of the checkoffs, under any boundary rule. |
| StreakFacts.ApplyMaximum | application/analytics.py:119-120 | After a step, the maximum is the larger of the old maximum and the new count. |
| StreakFacts.WalkMaximumStep | application/analytics.py:266-267 | The maximum never decreases from one checkoff to the next, and always bounds the current count. |
| StreakFacts.MaximumMonotone | application/analytics.py:386-387 | The maximum after an earlier prefix is at most the maximum after a later one. |
| StreakFacts.MaximumReached | application/analytics.py:119-120 | The maximum after k checkoffs equals the count after some prefix of at most k checkoffs. |
| StreakFacts.RunningMaximum | application/analytics.py:119-120 | `count_max` is exactly the largest count the walk ever reached: it bounds every earlier maximum and count, and some prefix attains it. |
| StreakFacts.DailyStreakCoversDays | application/analytics.py:86-116 | For a daily walk with count c, each of the c calendar days ending on the anchor's day holds a checkoff, so a daily streak of c means c consecutive checked days. |
| StreakFacts.FirstCheckoffNeverBroken | application/analytics.py:113 | Under every periodicity and delta, the first checkoff never yields status 3, since a reset from the sentinel is reported as 1. |
| StreakFacts.YearsApart | application/analytics.py:86-88 | Two instants at least two calendar years apart are more than 365 days and 365*86400 seconds apart. |
| StreakFacts.FirstCheckoffStartsStreak | application/analytics.py:107-116 | When the first checkoff is at least two years after the sentinel, every walker starts with anchor on it, count 1, maximum 1, status 1. |
| StreakFacts.SameIsoWeekYears | application/analytics.py:169-176 | Two ordered instants in the same ISO week of the same ISO year are in the same calendar year or in consecutive ones. |
| StreakFacts.WeeklySameIsoWeekIsLogged | application/analytics.py:169-178 | A later checkoff in the same ISO week as the anchor is classified as already logged by the weekly rule. |
| StreakFacts.MonthlyJanuaryAlwaysCounts | application/analytics.py:350-362 | The monthly rule counts every January checkoff of the year after the anchor as in time, whatever the gap or `delta_hours`. |
| StreakFacts.MonthlyGapOverYearEnd | application/analytics.py:350-362 | Concretely, a March anchor followed by a January checkoff ten months later is counted as in time. |
| StreakFacts.DailyGuardIgnoresDelta | application/analytics.py:99-116 | With `delta_hours` 10, a next-day checkoff 9 hours after the anchor is neither in time nor already logged, and breaks the streak: the guard uses 4 hours, not `delta_hours`. |
| StreakFacts.YearStarts2024To2027 | application/analytics.py:173-174 | The day ordinals before 2024-2027 and the Mondays of their ISO week 1 match Python's `toordinal` and `isocalendar`. |
| StreakFacts.WeeklyYearEndFallThrough | application/analytics.py:169-208 | The ISO dates of 2025-12-22, 2025-12-29 and 2026-01-05 are week 52, week 1 of 2026, and week 2 of 2026. After a 2025-12-22 anchor, the 2025-12-29 checkoff changes nothing (the same calendar year, but week 1 is not 52 + 1), and the 2026-01-05 checkoff breaks the streak. |
| Calendar.DaysBeforeYearClosedForm | application/analytics.py:86-87 | The recursive count of days before a year equals Python's closed form 365(y-1) + (y-1)/4 - (y-1)/100 + (y-1)/400. |
| Calendar.DaysBeforeYearMonotone | application/analytics.py:86-87 | Every year adds at least 365 days to the ordinal. |
| Calendar.OrdinalWithinYear | application/analytics.py:86-87 | A date's ordinal lies after the days before its year and no later than the last day of its year. |
| Calendar.AddWeek | application/analytics.py:228 | Adding `timedelta(days=7)` gives the date-time 7 days later with the same time of day. |
| Calendar.IsoWeek1MondayFacts | application/analytics.py:173-174 | The Monday of ISO week 1 is a Monday, and its week contains 4 January. |
| Calendar.Week1MondaysApart | application/analytics.py:228-229 | Consecutive ISO years begin 364 or 371 days apart. |
| Calendar.IsoCalendarIsWeekDate | application/analytics.py:173-174 | `isocalendar()` gives week 1..53 and weekday 1..7, with the weekday matching the ordinal. The date is the Monday of that ISO week plus the weekday offset, and it falls before the Monday of week 1 of the next ISO year, so the week number is the one `isocalendar` reports. The ISO year is within one of the calendar year. |
| Calendar.IsoCalendar | application/analytics.py:173-174 | The ISO year of a date is its calendar year or an adjacent one. |
| Analytics.CalculationOfStreaks | application/analytics.py:393-441 | An unsupported periodicity is an error. For a supported one, the result exists exactly when every checkoff parses, and is the walker's result with status -1 exactly when the streak is 0. A habit without checkoffs reports (0, -1). |
| Analytics.StreakOf | application/analytics.py:393-441 | An unsupported periodicity gives the periodicity error. For a supported one, the report exists exactly when the checkoffs normalize. A streak of 0 is reported with status -1. |
| Analytics.ReportedStatus | application/analytics.py:441 | The reported status code is 1, 2, 3 or -1, and is -1 exactly when the streak is 0. A broken current streak has value 1. |
| Analytics.CurrentAtMostMaximum | application/analytics.py:123 | For the same habit, the current streak never exceeds the maximum streak. |
| Analytics.ConsiderHabit | application/analytics.py:473-488 | A larger streak replaces the maximum and restarts the id list with this habit; an equal one appends the id; a smaller one changes nothing. |
| Analytics.CalculateLongestStreakOfAll | application/analytics.py:444-491 | Fails with the first habit whose streak cannot be computed. Otherwise it returns the largest maximum streak over all habits, with the ids, in storage order, of exactly the habits whose maximum equals it. |
| Analytics.Largest | application/analytics.py:456-476 | The running maximum, started at 0, bounds every habit's maximum streak and is 0 or attained by some habit. |
| Analytics.TiedIdsMembers | application/analytics.py:479-488 | An id is in the result list if and only if some habit with that id has the largest streak. |
| Analytics.NoneTiedAbove | application/analytics.py:473-482 | No habit is tied at a value above every habit's streak. |
| Analytics.FailureSticks | application/analytics.py:465-470 | Once one habit's streak fails, the aggregate over any longer prefix fails with that same error. |
| Analytics.LargestAppend | application/analytics.py:473-476 | One more habit raises the maximum only when its streak is strictly larger. |
| Analytics.TiedIdsAppend | application/analytics.py:485-488 | One more habit adds its id to the tied list exactly when its streak equals the value tested. |
| Analytics.AggregateStep | application/analytics.py:473-488 | Clearing the list and appending on a strictly larger streak, appending on an equal one and skipping a smaller one keep the list equal to the ids tied at the new maximum. |
| Analytics.AllZeroTiesEveryId | application/analytics.py:485-488 | When no habit has a streak, the maximum is 0 and every habit id is returned, since the equality branch matches 0. |
| Analytics.TiedIdsDistinct | application/analytics.py:482-488 | Distinct habit ids give a result list without repetitions. |
| Analytics.StrictLargestAlone | application/analytics.py:473-482 | A habit whose streak is strictly larger than every other habit's is the only id returned, with its streak as the maximum. |
| Analytics.SeededLongest | application/analytics.py:444-491 | For maximum streaks 26, 9, 7, 5, 4 of habits 1 to 5, the result is ([1], 26). |
| SeededDatabase.StudyWalk35 | unittest/test_database_setup.py:44-79 | The daily walk over the 35 rows of habit 1 ends on its last row with current count 26, maximum 26 and status 1. |
| SeededDatabase.SleepWalk18 | unittest/test_database_setup.py:80-98 | The daily walk over the 18 rows of habit 2 ends on its last row with current count 4, maximum 9 and status 1. |
| SeededDatabase.CleaningWalk12 | unittest/test_database_setup.py:100-112 | The weekly walk over the 12 rows of habit 3 ends anchored on its 11th row with current count 7, maximum 7 and status 2. |
| SeededDatabase.WorkoutWalk11 | unittest/test_database_setup.py:114-125 | The weekly walk over the 11 rows of habit 4 ends on its last row with current count 2, maximum 5 and status 1. |
| SeededDatabase.FamilyWalk9 | unittest/test_database_setup.py:127-137 | The monthly walk over the 9 rows of habit 5 ends on its last row with current count 1, maximum 4 and status 3. |
| SeededDatabase.NormalizedDates | unittest/test_database_setup.py:140 | Rows stored for a list of date-times behind the sentinel normalize back to that list. |
| SeededDatabase.StudyStreaks | unittest/test_analyze.py:152-188 | Habit 1 (daily) reports maximum streak 26 and current streak 26, status 1. |
| SeededDatabase.SleepStreaks | unittest/test_analyze.py:155-161 | Habit 2 (daily) reports maximum streak 9 and current streak 4. |
| SeededDatabase.CleaningStreaks | unittest/test_analyze.py:164-189 | Habit 3 (weekly) reports maximum streak 7 and current streak 7, status 2. |
| SeededDatabase.WorkoutStreaks | unittest/test_analyze.py:170-173 | Habit 4 (weekly) reports maximum streak 5 and current streak 2. |
| SeededDatabase.FamilyStreaks | unittest/test_analyze.py:176-190 | Habit 5 (monthly) reports maximum streak 4 and current streak 1, status 3. |
| SeededDatabase.SeededAggregate | unittest/test_analyze.py:192-198 | Five habits numbered 1 to 5 with maximum streaks 26, 9, 7, 5 and 4 give the list [26, 9, 7, 5, 4], the largest value 26, and [1] as the habits reaching it. |
| SeededDatabase.SeededLongestOfAll | unittest/test_analyze.py:192-198 | Over the whole seeded database, `calculate_longest_streak_of_all` gives ([1], 26), the maximum streak of habit 1. |
| SeededDatabase.StudyDatesListed | unittest/test_database_setup.py:44-78 | The rows of habit 1, read in local time, are the list the walk lemmas assume. |
| SeededDatabase.SleepDatesListed | unittest/test_database_setup.py:80-97 | The same for habit 2. |
| SeededDatabase.CleaningDatesListed | unittest/test_database_setup.py:100-111 | The same for habit 3. |
| SeededDatabase.WorkoutDatesListed | unittest/test_database_setup.py:114-124 | The same for habit 4. |
| SeededDatabase.FamilyDatesListed | unittest/test_database_setup.py:127-135 | The same for habit 5. |

## Left out

- Database access: the rows come from `get_all_log_data`, `get_periods` and `get_all_habits`, and these become parameters (`Habit` values in storage order).
  - The walkers' loop bound, which the source re-queries from the log table, is taken to be the number of converted checkoffs.
- `datetime.fromtimestamp(639093601)` depends on the local time zone. The sentinel is fixed at 1990-04-03 00:00:01, the value in the zone the unit tests assume.
- `%X` is taken in the C locale (`%H:%M:%S`). `%Y` reads exactly four digits. Looser inputs that `strptime` also accepts are not modelled: any run of whitespace in place of the space, one-digit month, day and time fields, a space-padded day, and non-ASCII Unicode digits. The model accepts only the canonical 19-character form that the application stores.
- Microseconds and time zones of `datetime` are not modelled; stored checkoffs have neither.
- An unsupported periodicity makes the source fail with a `TypeError` when it indexes the integer 0. The model returns `Failure(UnsupportedPeriodicity)`.
- A row `strptime` rejects raises `ValueError` in the source. The model returns `Failure(UnparsableCheckoff)` carrying that row.
- `application/cli.py`, `application/printers.py`, `application/habit.py`, `application/database.py` and `main.py` (menus, printing, persistence) are not part of this model.
- The seeded test database is read in Europe/Berlin local time, the zone in which the sentinel is 1990-04-03 00:00:01. The comments beside its rows give the same instants in UTC. Its rows enter the seeded lemmas through predicates that list each date-time (`IsStudyDates` and the others), together with witness lemmas showing that the listed constants satisfy them. The conversion of its `fromtimestamp` values to local date-times is not part of this model.
