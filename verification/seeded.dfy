/** The test database of the unit tests: five habits with their checkoffs
    from late November 2021 to July 2022, read as Europe/Berlin local
    time (the zone in which the sentinel is 1990-04-03 00:00:01). The
    lemmas walk each habit step by step and derive the streaks, statuses
    and overall longest streak that the unit tests check. */
module SeededDatabase {
  import opened Wrappers
  import opened Calendar
  import opened Normalizer
  import opened Streak
  import opened StreakFacts
  import opened Analytics

  /** Day numbers of January 1st and of the Monday of ISO week 1 for the
      years the checkoffs fall in and their neighbours. */
  lemma YearStarts2020To2023()
    ensures DaysBeforeYear(2020) == 737424 && DaysBeforeYear(2021) == 737790
    ensures DaysBeforeYear(2022) == 738155 && DaysBeforeYear(2023) == 738520
    ensures IsoWeek1Monday(2020) == 737423 && IsoWeek1Monday(2021) == 737794
    ensures IsoWeek1Monday(2022) == 738158 && IsoWeek1Monday(2023) == 738522
  {
    DaysBeforeYearClosedForm(2020);
    DaysBeforeYearClosedForm(2021);
    DaysBeforeYearClosedForm(2022);
    DaysBeforeYearClosedForm(2023);
  }

  /** One step of a walk whose anchor and next checkoff are known and
      whose transition has been worked out on them. */
  lemma WalkStepWith(cadence: Cadence, pd: seq<ValidDateTime>, deltaHours: int, k: nat,
                     anchor: ValidDateTime, candidate: ValidDateTime, t: Transition)
    requires k + 1 < |pd| && Walk(cadence, pd, deltaHours, k).anchor == anchor && pd[k + 1] == candidate
    requires Classify(cadence, anchor, candidate, deltaHours) == t
    ensures Walk(cadence, pd, deltaHours, k + 1) == Apply(Walk(cadence, pd, deltaHours, k), t, candidate, pd[0])
  {
    WalkStep(cadence, pd, deltaHours, k);
  }

  /** 2021-11-29 is day 738123, weekday 1 of ISO week 48 of 2021. */
  lemma IsoCalendarOn2021_11_29(d: ValidDateTime)
    requires d.year == 2021 && d.month == 11 && d.day == 29
    ensures IsoCalendar(d) == IsoDate(2021, 48, 1)
  {
    YearStarts2020To2023();
    assert d.Ordinal() == 738123;
  }

  /** 2021-11-30 is day 738124, weekday 2 of ISO week 48 of 2021. */
  lemma IsoCalendarOn2021_11_30(d: ValidDateTime)
    requires d.year == 2021 && d.month == 11 && d.day == 30
    ensures IsoCalendar(d) == IsoDate(2021, 48, 2)
  {
    YearStarts2020To2023();
    assert d.Ordinal() == 738124;
  }

  /** 2021-12-02 is day 738126, weekday 4 of ISO week 48 of 2021. */
  lemma IsoCalendarOn2021_12_02(d: ValidDateTime)
    requires d.year == 2021 && d.month == 12 && d.day == 2
    ensures IsoCalendar(d) == IsoDate(2021, 48, 4)
  {
    YearStarts2020To2023();
    assert d.Ordinal() == 738126;
  }

  /** 2021-12-05 is day 738129, weekday 7 of ISO week 48 of 2021. */
  lemma IsoCalendarOn2021_12_05(d: ValidDateTime)
    requires d.year == 2021 && d.month == 12 && d.day == 5
    ensures IsoCalendar(d) == IsoDate(2021, 48, 7)
  {
    YearStarts2020To2023();
    assert d.Ordinal() == 738129;
  }

  /** 2021-12-08 is day 738132, weekday 3 of ISO week 49 of 2021. */
  lemma IsoCalendarOn2021_12_08(d: ValidDateTime)
    requires d.year == 2021 && d.month == 12 && d.day == 8
    ensures IsoCalendar(d) == IsoDate(2021, 49, 3)
  {
    YearStarts2020To2023();
    assert d.Ordinal() == 738132;
  }

  /** 2021-12-12 is day 738136, weekday 7 of ISO week 49 of 2021. */
  lemma IsoCalendarOn2021_12_12(d: ValidDateTime)
    requires d.year == 2021 && d.month == 12 && d.day == 12
    ensures IsoCalendar(d) == IsoDate(2021, 49, 7)
  {
    YearStarts2020To2023();
    assert d.Ordinal() == 738136;
  }

  /** 2021-12-15 is day 738139, weekday 3 of ISO week 50 of 2021. */
  lemma IsoCalendarOn2021_12_15(d: ValidDateTime)
    requires d.year == 2021 && d.month == 12 && d.day == 15
    ensures IsoCalendar(d) == IsoDate(2021, 50, 3)
  {
    YearStarts2020To2023();
    assert d.Ordinal() == 738139;
  }

  /** 2021-12-16 is day 738140, weekday 4 of ISO week 50 of 2021. */
  lemma IsoCalendarOn2021_12_16(d: ValidDateTime)
    requires d.year == 2021 && d.month == 12 && d.day == 16
    ensures IsoCalendar(d) == IsoDate(2021, 50, 4)
  {
    YearStarts2020To2023();
    assert d.Ordinal() == 738140;
  }

  /** 2021-12-17 is day 738141, weekday 5 of ISO week 50 of 2021. */
  lemma IsoCalendarOn2021_12_17(d: ValidDateTime)
    requires d.year == 2021 && d.month == 12 && d.day == 17
    ensures IsoCalendar(d) == IsoDate(2021, 50, 5)
  {
    YearStarts2020To2023();
    assert d.Ordinal() == 738141;
  }

  /** 2021-12-18 is day 738142, weekday 6 of ISO week 50 of 2021. */
  lemma IsoCalendarOn2021_12_18(d: ValidDateTime)
    requires d.year == 2021 && d.month == 12 && d.day == 18
    ensures IsoCalendar(d) == IsoDate(2021, 50, 6)
  {
    YearStarts2020To2023();
    assert d.Ordinal() == 738142;
  }

  /** 2021-12-22 is day 738146, weekday 3 of ISO week 51 of 2021. */
  lemma IsoCalendarOn2021_12_22(d: ValidDateTime)
    requires d.year == 2021 && d.month == 12 && d.day == 22
    ensures IsoCalendar(d) == IsoDate(2021, 51, 3)
  {
    YearStarts2020To2023();
    assert d.Ordinal() == 738146;
  }

  /** 2021-12-23 is day 738147, weekday 4 of ISO week 51 of 2021. */
  lemma IsoCalendarOn2021_12_23(d: ValidDateTime)
    requires d.year == 2021 && d.month == 12 && d.day == 23
    ensures IsoCalendar(d) == IsoDate(2021, 51, 4)
  {
    YearStarts2020To2023();
    assert d.Ordinal() == 738147;
  }

  /** 2021-12-28 is day 738152, weekday 2 of ISO week 52 of 2021. */
  lemma IsoCalendarOn2021_12_28(d: ValidDateTime)
    requires d.year == 2021 && d.month == 12 && d.day == 28
    ensures IsoCalendar(d) == IsoDate(2021, 52, 2)
  {
    YearStarts2020To2023();
    assert d.Ordinal() == 738152;
  }

  /** 2021-12-30 is day 738154, weekday 4 of ISO week 52 of 2021. */
  lemma IsoCalendarOn2021_12_30(d: ValidDateTime)
    requires d.year == 2021 && d.month == 12 && d.day == 30
    ensures IsoCalendar(d) == IsoDate(2021, 52, 4)
  {
    YearStarts2020To2023();
    assert d.Ordinal() == 738154;
  }

  /** 2022-01-04 is day 738159, weekday 2 of ISO week 1 of 2022. */
  lemma IsoCalendarOn2022_01_04(d: ValidDateTime)
    requires d.year == 2022 && d.month == 1 && d.day == 4
    ensures IsoCalendar(d) == IsoDate(2022, 1, 2)
  {
    YearStarts2020To2023();
    assert d.Ordinal() == 738159;
  }

  /** 2022-01-05 is day 738160, weekday 3 of ISO week 1 of 2022. */
  lemma IsoCalendarOn2022_01_05(d: ValidDateTime)
    requires d.year == 2022 && d.month == 1 && d.day == 5
    ensures IsoCalendar(d) == IsoDate(2022, 1, 3)
  {
    YearStarts2020To2023();
    assert d.Ordinal() == 738160;
  }

  /** 2022-01-06 is day 738161, weekday 4 of ISO week 1 of 2022. */
  lemma IsoCalendarOn2022_01_06(d: ValidDateTime)
    requires d.year == 2022 && d.month == 1 && d.day == 6
    ensures IsoCalendar(d) == IsoDate(2022, 1, 4)
  {
    YearStarts2020To2023();
    assert d.Ordinal() == 738161;
  }

  /** 2022-01-13 is day 738168, weekday 4 of ISO week 2 of 2022. */
  lemma IsoCalendarOn2022_01_13(d: ValidDateTime)
    requires d.year == 2022 && d.month == 1 && d.day == 13
    ensures IsoCalendar(d) == IsoDate(2022, 2, 4)
  {
    YearStarts2020To2023();
    assert d.Ordinal() == 738168;
  }

  /** 2022-01-19 is day 738174, weekday 3 of ISO week 3 of 2022. */
  lemma IsoCalendarOn2022_01_19(d: ValidDateTime)
    requires d.year == 2022 && d.month == 1 && d.day == 19
    ensures IsoCalendar(d) == IsoDate(2022, 3, 3)
  {
    YearStarts2020To2023();
    assert d.Ordinal() == 738174;
  }

  /** 2022-01-28 is day 738183, weekday 5 of ISO week 4 of 2022. */
  lemma IsoCalendarOn2022_01_28(d: ValidDateTime)
    requires d.year == 2022 && d.month == 1 && d.day == 28
    ensures IsoCalendar(d) == IsoDate(2022, 4, 5)
  {
    YearStarts2020To2023();
    assert d.Ordinal() == 738183;
  }

  /** 2022-02-02 is day 738188, weekday 3 of ISO week 5 of 2022. */
  lemma IsoCalendarOn2022_02_02(d: ValidDateTime)
    requires d.year == 2022 && d.month == 2 && d.day == 2
    ensures IsoCalendar(d) == IsoDate(2022, 5, 3)
  {
    YearStarts2020To2023();
    assert d.Ordinal() == 738188;
  }

  /** 2022-02-16 is day 738202, weekday 3 of ISO week 7 of 2022. */
  lemma IsoCalendarOn2022_02_16(d: ValidDateTime)
    requires d.year == 2022 && d.month == 2 && d.day == 16
    ensures IsoCalendar(d) == IsoDate(2022, 7, 3)
  {
    YearStarts2020To2023();
    assert d.Ordinal() == 738202;
  }

  /** 2022-02-22 is day 738208, weekday 2 of ISO week 8 of 2022. */
  lemma IsoCalendarOn2022_02_22(d: ValidDateTime)
    requires d.year == 2022 && d.month == 2 && d.day == 22
    ensures IsoCalendar(d) == IsoDate(2022, 8, 2)
  {
    YearStarts2020To2023();
    assert d.Ordinal() == 738208;
  }

  /** The weekly rule on checkoff 2 of habit 3 against its anchor. */
  lemma CleaningStep2(anchor: ValidDateTime, candidate: ValidDateTime)
    requires anchor == DateTime(2021, 11, 30, 6, 11, 9)
    requires candidate == DateTime(2021, 12, 8, 7, 11, 9)
    ensures ClassifyWeekly(anchor, candidate, DefaultDeltaHours) == InTime
  {
    IsoCalendarOn2021_11_30(anchor);
    IsoCalendarOn2021_12_08(candidate);
  }

  /** The weekly rule on checkoff 3 of habit 3 against its anchor. */
  lemma CleaningStep3(anchor: ValidDateTime, candidate: ValidDateTime)
    requires anchor == DateTime(2021, 12, 8, 7, 11, 9)
    requires candidate == DateTime(2021, 12, 12, 7, 11, 9)
    ensures ClassifyWeekly(anchor, candidate, DefaultDeltaHours) == Logged
  {
    IsoCalendarOn2021_12_08(anchor);
    IsoCalendarOn2021_12_12(candidate);
  }

  /** The weekly rule on checkoff 4 of habit 3 against its anchor. */
  lemma CleaningStep4(anchor: ValidDateTime, candidate: ValidDateTime)
    requires anchor == DateTime(2021, 12, 8, 7, 11, 9)
    requires candidate == DateTime(2021, 12, 15, 7, 11, 9)
    ensures ClassifyWeekly(anchor, candidate, DefaultDeltaHours) == InTime
  {
    IsoCalendarOn2021_12_08(anchor);
    IsoCalendarOn2021_12_15(candidate);
  }

  /** The weekly rule on checkoff 5 of habit 3 against its anchor. */
  lemma CleaningStep5(anchor: ValidDateTime, candidate: ValidDateTime)
    requires anchor == DateTime(2021, 12, 15, 7, 11, 9)
    requires candidate == DateTime(2021, 12, 16, 7, 11, 9)
    ensures ClassifyWeekly(anchor, candidate, DefaultDeltaHours) == Logged
  {
    IsoCalendarOn2021_12_15(anchor);
    IsoCalendarOn2021_12_16(candidate);
  }

  /** The weekly rule on checkoff 6 of habit 3 against its anchor. */
  lemma CleaningStep6(anchor: ValidDateTime, candidate: ValidDateTime)
    requires anchor == DateTime(2021, 12, 15, 7, 11, 9)
    requires candidate == DateTime(2021, 12, 17, 8, 11, 9)
    ensures ClassifyWeekly(anchor, candidate, DefaultDeltaHours) == Logged
  {
    IsoCalendarOn2021_12_15(anchor);
    IsoCalendarOn2021_12_17(candidate);
  }

  /** The weekly rule on checkoff 7 of habit 3 against its anchor. */
  lemma CleaningStep7(anchor: ValidDateTime, candidate: ValidDateTime)
    requires anchor == DateTime(2021, 12, 15, 7, 11, 9)
    requires candidate == DateTime(2021, 12, 18, 8, 11, 9)
    ensures ClassifyWeekly(anchor, candidate, DefaultDeltaHours) == Logged
  {
    IsoCalendarOn2021_12_15(anchor);
    IsoCalendarOn2021_12_18(candidate);
  }

  /** The weekly rule on checkoff 8 of habit 3 against its anchor. */
  lemma CleaningStep8(anchor: ValidDateTime, candidate: ValidDateTime)
    requires anchor == DateTime(2021, 12, 15, 7, 11, 9)
    requires candidate == DateTime(2021, 12, 22, 8, 11, 9)
    ensures ClassifyWeekly(anchor, candidate, DefaultDeltaHours) == InTime
  {
    IsoCalendarOn2021_12_15(anchor);
    IsoCalendarOn2021_12_22(candidate);
  }

  /** The weekly rule on checkoff 9 of habit 3 against its anchor. */
  lemma CleaningStep9(anchor: ValidDateTime, candidate: ValidDateTime)
    requires anchor == DateTime(2021, 12, 22, 8, 11, 9)
    requires candidate == DateTime(2021, 12, 28, 8, 11, 9)
    ensures ClassifyWeekly(anchor, candidate, DefaultDeltaHours) == InTime
  {
    IsoCalendarOn2021_12_22(anchor);
    IsoCalendarOn2021_12_28(candidate);
  }

  /** The weekly rule on checkoff 10 of habit 3 against its anchor. */
  lemma CleaningStep10(anchor: ValidDateTime, candidate: ValidDateTime)
    requires anchor == DateTime(2021, 12, 28, 8, 11, 9)
    requires candidate == DateTime(2022, 1, 5, 8, 11, 9)
    ensures ClassifyWeekly(anchor, candidate, DefaultDeltaHours) == InTime
  {
    IsoCalendarOn2021_12_28(anchor);
    IsoCalendarOn2022_01_05(candidate);
    IsoCalendarOn2022_01_04(AddWeek(anchor));
  }

  /** The weekly rule on checkoff 11 of habit 3 against its anchor. */
  lemma CleaningStep11(anchor: ValidDateTime, candidate: ValidDateTime)
    requires anchor == DateTime(2022, 1, 5, 8, 11, 9)
    requires candidate == DateTime(2022, 1, 13, 8, 11, 9)
    ensures ClassifyWeekly(anchor, candidate, DefaultDeltaHours) == InTime
  {
    IsoCalendarOn2022_01_05(anchor);
    IsoCalendarOn2022_01_13(candidate);
  }

  /** The weekly rule on checkoff 12 of habit 3 against its anchor. */
  lemma CleaningStep12(anchor: ValidDateTime, candidate: ValidDateTime)
    requires anchor == DateTime(2022, 1, 13, 8, 11, 9)
    requires candidate == DateTime(2022, 1, 13, 9, 0, 0)
    ensures ClassifyWeekly(anchor, candidate, DefaultDeltaHours) == Logged
  {
    IsoCalendarOn2022_01_13(anchor);
    IsoCalendarOn2022_01_13(candidate);
  }

  /** The weekly rule on checkoff 2 of habit 4 against its anchor. */
  lemma WorkoutStep2(anchor: ValidDateTime, candidate: ValidDateTime)
    requires anchor == DateTime(2021, 11, 29, 8, 11, 9)
    requires candidate == DateTime(2021, 12, 2, 8, 11, 9)
    ensures ClassifyWeekly(anchor, candidate, DefaultDeltaHours) == Logged
  {
    IsoCalendarOn2021_11_29(anchor);
    IsoCalendarOn2021_12_02(candidate);
  }

  /** The weekly rule on checkoff 3 of habit 4 against its anchor. */
  lemma WorkoutStep3(anchor: ValidDateTime, candidate: ValidDateTime)
    requires anchor == DateTime(2021, 11, 29, 8, 11, 9)
    requires candidate == DateTime(2021, 12, 5, 8, 11, 9)
    ensures ClassifyWeekly(anchor, candidate, DefaultDeltaHours) == Logged
  {
    IsoCalendarOn2021_11_29(anchor);
    IsoCalendarOn2021_12_05(candidate);
  }

  /** The weekly rule on checkoff 4 of habit 4 against its anchor. */
  lemma WorkoutStep4(anchor: ValidDateTime, candidate: ValidDateTime)
    requires anchor == DateTime(2021, 11, 29, 8, 11, 9)
    requires candidate == DateTime(2021, 12, 23, 8, 11, 9)
    ensures ClassifyWeekly(anchor, candidate, DefaultDeltaHours) == Reset
  {
    IsoCalendarOn2021_11_29(anchor);
    IsoCalendarOn2021_12_23(candidate);
  }

  /** The weekly rule on checkoff 5 of habit 4 against its anchor. */
  lemma WorkoutStep5(anchor: ValidDateTime, candidate: ValidDateTime)
    requires anchor == DateTime(2021, 12, 23, 8, 11, 9)
    requires candidate == DateTime(2022, 1, 6, 8, 11, 9)
    ensures ClassifyWeekly(anchor, candidate, DefaultDeltaHours) == Reset
  {
    IsoCalendarOn2021_12_23(anchor);
    IsoCalendarOn2022_01_06(candidate);
    IsoCalendarOn2021_12_30(AddWeek(anchor));
  }

  /** The weekly rule on checkoff 6 of habit 4 against its anchor. */
  lemma WorkoutStep6(anchor: ValidDateTime, candidate: ValidDateTime)
    requires anchor == DateTime(2022, 1, 6, 8, 11, 9)
    requires candidate == DateTime(2022, 1, 13, 8, 11, 9)
    ensures ClassifyWeekly(anchor, candidate, DefaultDeltaHours) == InTime
  {
    IsoCalendarOn2022_01_06(anchor);
    IsoCalendarOn2022_01_13(candidate);
  }

  /** The weekly rule on checkoff 7 of habit 4 against its anchor. */
  lemma WorkoutStep7(anchor: ValidDateTime, candidate: ValidDateTime)
    requires anchor == DateTime(2022, 1, 13, 8, 11, 9)
    requires candidate == DateTime(2022, 1, 19, 11, 21, 45)
    ensures ClassifyWeekly(anchor, candidate, DefaultDeltaHours) == InTime
  {
    IsoCalendarOn2022_01_13(anchor);
    IsoCalendarOn2022_01_19(candidate);
  }

  /** The weekly rule on checkoff 8 of habit 4 against its anchor. */
  lemma WorkoutStep8(anchor: ValidDateTime, candidate: ValidDateTime)
    requires anchor == DateTime(2022, 1, 19, 11, 21, 45)
    requires candidate == DateTime(2022, 1, 28, 11, 21, 45)
    ensures ClassifyWeekly(anchor, candidate, DefaultDeltaHours) == InTime
  {
    IsoCalendarOn2022_01_19(anchor);
    IsoCalendarOn2022_01_28(candidate);
  }

  /** The weekly rule on checkoff 9 of habit 4 against its anchor. */
  lemma WorkoutStep9(anchor: ValidDateTime, candidate: ValidDateTime)
    requires anchor == DateTime(2022, 1, 28, 11, 21, 45)
    requires candidate == DateTime(2022, 2, 2, 11, 21, 45)
    ensures ClassifyWeekly(anchor, candidate, DefaultDeltaHours) == InTime
  {
    IsoCalendarOn2022_01_28(anchor);
    IsoCalendarOn2022_02_02(candidate);
  }

  /** The weekly rule on checkoff 10 of habit 4 against its anchor. */
  lemma WorkoutStep10(anchor: ValidDateTime, candidate: ValidDateTime)
    requires anchor == DateTime(2022, 2, 2, 11, 21, 45)
    requires candidate == DateTime(2022, 2, 16, 11, 21, 45)
    ensures ClassifyWeekly(anchor, candidate, DefaultDeltaHours) == Reset
  {
    IsoCalendarOn2022_02_02(anchor);
    IsoCalendarOn2022_02_16(candidate);
  }

  /** The weekly rule on checkoff 11 of habit 4 against its anchor. */
  lemma WorkoutStep11(anchor: ValidDateTime, candidate: ValidDateTime)
    requires anchor == DateTime(2022, 2, 16, 11, 21, 45)
    requires candidate == DateTime(2022, 2, 22, 11, 21, 45)
    ensures ClassifyWeekly(anchor, candidate, DefaultDeltaHours) == InTime
  {
    IsoCalendarOn2022_02_16(anchor);
    IsoCalendarOn2022_02_22(candidate);
  }

  /** The checkoffs of habit 1 (daily) in Europe/Berlin local time, behind the sentinel. */
  const StudyDates: seq<ValidDateTime> := [
    Sentinel,
    DateTime(2021, 12, 2, 14, 56, 34),
    DateTime(2021, 12, 3, 15, 56, 34),
    DateTime(2021, 12, 4, 15, 56, 34),
    DateTime(2021, 12, 7, 15, 56, 34),
    DateTime(2021, 12, 8, 16, 56, 34),
    DateTime(2021, 12, 8, 23, 56, 34),
    DateTime(2021, 12, 9, 14, 56, 34),
    DateTime(2021, 12, 10, 14, 56, 34)
  ] + [
    DateTime(2021, 12, 11, 18, 56, 34),
    DateTime(2021, 12, 12, 20, 56, 34),
    DateTime(2021, 12, 13, 23, 56, 34),
    DateTime(2021, 12, 14, 0, 56, 34),
    DateTime(2021, 12, 14, 16, 56, 34),
    DateTime(2021, 12, 15, 16, 56, 34),
    DateTime(2021, 12, 16, 14, 56, 34),
    DateTime(2021, 12, 17, 10, 40, 0),
    DateTime(2021, 12, 18, 10, 40, 0)
  ] + [
    DateTime(2021, 12, 19, 16, 55, 0),
    DateTime(2021, 12, 20, 22, 55, 0),
    DateTime(2021, 12, 21, 0, 1, 0),
    DateTime(2021, 12, 21, 13, 1, 0),
    DateTime(2021, 12, 22, 13, 1, 0),
    DateTime(2021, 12, 23, 15, 1, 0),
    DateTime(2021, 12, 24, 14, 1, 0),
    DateTime(2021, 12, 25, 14, 1, 0),
    DateTime(2021, 12, 26, 12, 5, 0)
  ] + [
    DateTime(2021, 12, 27, 10, 5, 0),
    DateTime(2021, 12, 28, 0, 5, 0),
    DateTime(2021, 12, 28, 6, 42, 17),
    DateTime(2021, 12, 29, 7, 42, 17),
    DateTime(2021, 12, 30, 5, 0, 17),
    DateTime(2021, 12, 30, 13, 0, 17),
    DateTime(2021, 12, 30, 13, 0, 45),
    DateTime(2021, 12, 31, 12, 0, 17),
    DateTime(2022, 1, 1, 13, 0, 17)
  ]

  /** `pd` lists the sentinel and the checkoffs of habit 1, in storage order. */
  predicate IsStudyDates(pd: seq<ValidDateTime>) {
    && |pd| == 36
    && pd[0] == Sentinel
    && pd[1] == DateTime(2021, 12, 2, 14, 56, 34)
    && pd[2] == DateTime(2021, 12, 3, 15, 56, 34)
    && pd[3] == DateTime(2021, 12, 4, 15, 56, 34)
    && pd[4] == DateTime(2021, 12, 7, 15, 56, 34)
    && pd[5] == DateTime(2021, 12, 8, 16, 56, 34)
    && pd[6] == DateTime(2021, 12, 8, 23, 56, 34)
    && pd[7] == DateTime(2021, 12, 9, 14, 56, 34)
    && pd[8] == DateTime(2021, 12, 10, 14, 56, 34)
    && pd[9] == DateTime(2021, 12, 11, 18, 56, 34)
    && pd[10] == DateTime(2021, 12, 12, 20, 56, 34)
    && pd[11] == DateTime(2021, 12, 13, 23, 56, 34)
    && pd[12] == DateTime(2021, 12, 14, 0, 56, 34)
    && pd[13] == DateTime(2021, 12, 14, 16, 56, 34)
    && pd[14] == DateTime(2021, 12, 15, 16, 56, 34)
    && pd[15] == DateTime(2021, 12, 16, 14, 56, 34)
    && pd[16] == DateTime(2021, 12, 17, 10, 40, 0)
    && pd[17] == DateTime(2021, 12, 18, 10, 40, 0)
    && pd[18] == DateTime(2021, 12, 19, 16, 55, 0)
    && pd[19] == DateTime(2021, 12, 20, 22, 55, 0)
    && pd[20] == DateTime(2021, 12, 21, 0, 1, 0)
    && pd[21] == DateTime(2021, 12, 21, 13, 1, 0)
    && pd[22] == DateTime(2021, 12, 22, 13, 1, 0)
    && pd[23] == DateTime(2021, 12, 23, 15, 1, 0)
    && pd[24] == DateTime(2021, 12, 24, 14, 1, 0)
    && pd[25] == DateTime(2021, 12, 25, 14, 1, 0)
    && pd[26] == DateTime(2021, 12, 26, 12, 5, 0)
    && pd[27] == DateTime(2021, 12, 27, 10, 5, 0)
    && pd[28] == DateTime(2021, 12, 28, 0, 5, 0)
    && pd[29] == DateTime(2021, 12, 28, 6, 42, 17)
    && pd[30] == DateTime(2021, 12, 29, 7, 42, 17)
    && pd[31] == DateTime(2021, 12, 30, 5, 0, 17)
    && pd[32] == DateTime(2021, 12, 30, 13, 0, 17)
    && pd[33] == DateTime(2021, 12, 30, 13, 0, 45)
    && pd[34] == DateTime(2021, 12, 31, 12, 0, 17)
    && pd[35] == DateTime(2022, 1, 1, 13, 0, 17)
  }

  /** The daily walk over the first 3 checkoffs of habit 1. */
  lemma StudyWalk3(pd: seq<ValidDateTime>)
    requires IsStudyDates(pd)
    ensures Walk(Daily, pd, DefaultDeltaHours, 3) == WalkState(pd[3], 3, 3, Completed)
  {
    FirstCheckoffStartsStreak(Daily, pd, DefaultDeltaHours);
    YearStarts2020To2023();
    WalkStep(Daily, pd, DefaultDeltaHours, 1);
    assert Walk(Daily, pd, DefaultDeltaHours, 2) == WalkState(pd[2], 2, 2, Completed);
    WalkStep(Daily, pd, DefaultDeltaHours, 2);
  }

  /** The daily walk over the first 5 checkoffs of habit 1. */
  lemma StudyWalk5(pd: seq<ValidDateTime>)
    requires IsStudyDates(pd)
    ensures Walk(Daily, pd, DefaultDeltaHours, 5) == WalkState(pd[5], 2, 3, Completed)
  {
    StudyWalk3(pd);
    YearStarts2020To2023();
    WalkStep(Daily, pd, DefaultDeltaHours, 3);
    assert Walk(Daily, pd, DefaultDeltaHours, 4) == WalkState(pd[4], 1, 3, Broken);
    WalkStep(Daily, pd, DefaultDeltaHours, 4);
  }

  /** The daily walk over the first 7 checkoffs of habit 1. */
  lemma StudyWalk7(pd: seq<ValidDateTime>)
    requires IsStudyDates(pd)
    ensures Walk(Daily, pd, DefaultDeltaHours, 7) == WalkState(pd[7], 3, 3, Completed)
  {
    StudyWalk5(pd);
    YearStarts2020To2023();
    WalkStep(Daily, pd, DefaultDeltaHours, 5);
    assert Walk(Daily, pd, DefaultDeltaHours, 6) == WalkState(pd[5], 2, 3, AlreadyLogged);
    WalkStep(Daily, pd, DefaultDeltaHours, 6);
  }

  /** The daily walk over the first 9 checkoffs of habit 1. */
  lemma StudyWalk9(pd: seq<ValidDateTime>)
    requires IsStudyDates(pd)
    ensures Walk(Daily, pd, DefaultDeltaHours, 9) == WalkState(pd[9], 5, 5, Completed)
  {
    StudyWalk7(pd);
    YearStarts2020To2023();
    WalkStep(Daily, pd, DefaultDeltaHours, 7);
    assert Walk(Daily, pd, DefaultDeltaHours, 8) == WalkState(pd[8], 4, 4, Completed);
    WalkStep(Daily, pd, DefaultDeltaHours, 8);
  }

  /** The daily walk over the first 11 checkoffs of habit 1. */
  lemma StudyWalk11(pd: seq<ValidDateTime>)
    requires IsStudyDates(pd)
    ensures Walk(Daily, pd, DefaultDeltaHours, 11) == WalkState(pd[11], 7, 7, Completed)
  {
    StudyWalk9(pd);
    YearStarts2020To2023();
    WalkStep(Daily, pd, DefaultDeltaHours, 9);
    assert Walk(Daily, pd, DefaultDeltaHours, 10) == WalkState(pd[10], 6, 6, Completed);
    WalkStep(Daily, pd, DefaultDeltaHours, 10);
  }

  /** The daily walk over the first 13 checkoffs of habit 1. */
  lemma StudyWalk13(pd: seq<ValidDateTime>)
    requires IsStudyDates(pd)
    ensures Walk(Daily, pd, DefaultDeltaHours, 13) == WalkState(pd[13], 8, 8, Completed)
  {
    StudyWalk11(pd);
    YearStarts2020To2023();
    WalkStep(Daily, pd, DefaultDeltaHours, 11);
    assert Walk(Daily, pd, DefaultDeltaHours, 12) == WalkState(pd[11], 7, 7, AlreadyLogged);
    WalkStep(Daily, pd, DefaultDeltaHours, 12);
  }

  /** The daily walk over the first 15 checkoffs of habit 1. */
  lemma StudyWalk15(pd: seq<ValidDateTime>)
    requires IsStudyDates(pd)
    ensures Walk(Daily, pd, DefaultDeltaHours, 15) == WalkState(pd[15], 10, 10, Completed)
  {
    StudyWalk13(pd);
    YearStarts2020To2023();
    WalkStep(Daily, pd, DefaultDeltaHours, 13);
    assert Walk(Daily, pd, DefaultDeltaHours, 14) == WalkState(pd[14], 9, 9, Completed);
    WalkStep(Daily, pd, DefaultDeltaHours, 14);
  }

  /** The daily walk over the first 17 checkoffs of habit 1. */
  lemma StudyWalk17(pd: seq<ValidDateTime>)
    requires IsStudyDates(pd)
    ensures Walk(Daily, pd, DefaultDeltaHours, 17) == WalkState(pd[17], 12, 12, Completed)
  {
    StudyWalk15(pd);
    YearStarts2020To2023();
    WalkStep(Daily, pd, DefaultDeltaHours, 15);
    assert Walk(Daily, pd, DefaultDeltaHours, 16) == WalkState(pd[16], 11, 11, Completed);
    WalkStep(Daily, pd, DefaultDeltaHours, 16);
  }

  /** The daily walk over the first 19 checkoffs of habit 1. */
  lemma StudyWalk19(pd: seq<ValidDateTime>)
    requires IsStudyDates(pd)
    ensures Walk(Daily, pd, DefaultDeltaHours, 19) == WalkState(pd[19], 14, 14, Completed)
  {
    StudyWalk17(pd);
    YearStarts2020To2023();
    WalkStep(Daily, pd, DefaultDeltaHours, 17);
    assert Walk(Daily, pd, DefaultDeltaHours, 18) == WalkState(pd[18], 13, 13, Completed);
    WalkStep(Daily, pd, DefaultDeltaHours, 18);
  }

  /** The daily walk over the first 21 checkoffs of habit 1. */
  lemma StudyWalk21(pd: seq<ValidDateTime>)
    requires IsStudyDates(pd)
    ensures Walk(Daily, pd, DefaultDeltaHours, 21) == WalkState(pd[21], 15, 15, Completed)
  {
    StudyWalk19(pd);
    YearStarts2020To2023();
    WalkStep(Daily, pd, DefaultDeltaHours, 19);
    assert Walk(Daily, pd, DefaultDeltaHours, 20) == WalkState(pd[19], 14, 14, AlreadyLogged);
    WalkStep(Daily, pd, DefaultDeltaHours, 20);
  }

  /** The daily walk over the first 23 checkoffs of habit 1. */
  lemma StudyWalk23(pd: seq<ValidDateTime>)
    requires IsStudyDates(pd)
    ensures Walk(Daily, pd, DefaultDeltaHours, 23) == WalkState(pd[23], 17, 17, Completed)
  {
    StudyWalk21(pd);
    YearStarts2020To2023();
    WalkStep(Daily, pd, DefaultDeltaHours, 21);
    assert Walk(Daily, pd, DefaultDeltaHours, 22) == WalkState(pd[22], 16, 16, Completed);
    WalkStep(Daily, pd, DefaultDeltaHours, 22);
  }

  /** The daily walk over the first 25 checkoffs of habit 1. */
  lemma StudyWalk25(pd: seq<ValidDateTime>)
    requires IsStudyDates(pd)
    ensures Walk(Daily, pd, DefaultDeltaHours, 25) == WalkState(pd[25], 19, 19, Completed)
  {
    StudyWalk23(pd);
    YearStarts2020To2023();
    WalkStep(Daily, pd, DefaultDeltaHours, 23);
    assert Walk(Daily, pd, DefaultDeltaHours, 24) == WalkState(pd[24], 18, 18, Completed);
    WalkStep(Daily, pd, DefaultDeltaHours, 24);
  }

  /** The daily walk over the first 27 checkoffs of habit 1. */
  lemma StudyWalk27(pd: seq<ValidDateTime>)
    requires IsStudyDates(pd)
    ensures Walk(Daily, pd, DefaultDeltaHours, 27) == WalkState(pd[27], 21, 21, Completed)
  {
    StudyWalk25(pd);
    YearStarts2020To2023();
    WalkStep(Daily, pd, DefaultDeltaHours, 25);
    assert Walk(Daily, pd, DefaultDeltaHours, 26) == WalkState(pd[26], 20, 20, Completed);
    WalkStep(Daily, pd, DefaultDeltaHours, 26);
  }

  /** The daily walk over the first 29 checkoffs of habit 1. */
  lemma StudyWalk29(pd: seq<ValidDateTime>)
    requires IsStudyDates(pd)
    ensures Walk(Daily, pd, DefaultDeltaHours, 29) == WalkState(pd[28], 22, 22, AlreadyLogged)
  {
    StudyWalk27(pd);
    YearStarts2020To2023();
    WalkStep(Daily, pd, DefaultDeltaHours, 27);
    assert Walk(Daily, pd, DefaultDeltaHours, 28) == WalkState(pd[28], 22, 22, Completed);
    WalkStep(Daily, pd, DefaultDeltaHours, 28);
  }

  /** The daily walk over the first 31 checkoffs of habit 1. */
  lemma StudyWalk31(pd: seq<ValidDateTime>)
    requires IsStudyDates(pd)
    ensures Walk(Daily, pd, DefaultDeltaHours, 31) == WalkState(pd[31], 24, 24, Completed)
  {
    StudyWalk29(pd);
    YearStarts2020To2023();
    WalkStep(Daily, pd, DefaultDeltaHours, 29);
    assert Walk(Daily, pd, DefaultDeltaHours, 30) == WalkState(pd[30], 23, 23, Completed);
    WalkStep(Daily, pd, DefaultDeltaHours, 30);
  }

  /** The daily walk over the first 33 checkoffs of habit 1. */
  lemma StudyWalk33(pd: seq<ValidDateTime>)
    requires IsStudyDates(pd)
    ensures Walk(Daily, pd, DefaultDeltaHours, 33) == WalkState(pd[31], 24, 24, AlreadyLogged)
  {
    StudyWalk31(pd);
    YearStarts2020To2023();
    WalkStep(Daily, pd, DefaultDeltaHours, 31);
    assert Walk(Daily, pd, DefaultDeltaHours, 32) == WalkState(pd[31], 24, 24, AlreadyLogged);
    WalkStep(Daily, pd, DefaultDeltaHours, 32);
  }

  /** The daily walk over all 35 checkoffs of habit 1. */
  lemma StudyWalk35(pd: seq<ValidDateTime>)
    requires IsStudyDates(pd)
    ensures Walk(Daily, pd, DefaultDeltaHours, 35) == WalkState(pd[35], 26, 26, Completed)
  {
    StudyWalk33(pd);
    YearStarts2020To2023();
    WalkStep(Daily, pd, DefaultDeltaHours, 33);
    assert Walk(Daily, pd, DefaultDeltaHours, 34) == WalkState(pd[34], 25, 25, Completed);
    WalkStep(Daily, pd, DefaultDeltaHours, 34);
  }

  /** The checkoffs of habit 2 (daily) in Europe/Berlin local time, behind the sentinel. */
  const SleepDates: seq<ValidDateTime> := [
    Sentinel,
    DateTime(2021, 12, 3, 13, 0, 45),
    DateTime(2021, 12, 4, 13, 0, 45),
    DateTime(2021, 12, 5, 13, 0, 45),
    DateTime(2021, 12, 8, 10, 0, 45),
    DateTime(2021, 12, 12, 9, 0, 45),
    DateTime(2021, 12, 16, 11, 5, 45),
    DateTime(2021, 12, 17, 12, 5, 45),
    DateTime(2021, 12, 18, 12, 5, 45),
    DateTime(2021, 12, 19, 10, 5, 45),
    DateTime(2021, 12, 20, 8, 5, 45),
    DateTime(2021, 12, 21, 7, 5, 45),
    DateTime(2021, 12, 22, 7, 5, 45),
    DateTime(2021, 12, 23, 5, 5, 45),
    DateTime(2021, 12, 24, 5, 5, 45),
    DateTime(2021, 12, 30, 7, 5, 45),
    DateTime(2021, 12, 31, 12, 5, 45),
    DateTime(2022, 1, 1, 5, 5, 45),
    DateTime(2022, 1, 2, 7, 5, 45)
  ]

  /** `pd` lists the sentinel and the checkoffs of habit 2, in storage order. */
  predicate IsSleepDates(pd: seq<ValidDateTime>) {
    && |pd| == 19
    && pd[0] == Sentinel
    && pd[1] == DateTime(2021, 12, 3, 13, 0, 45)
    && pd[2] == DateTime(2021, 12, 4, 13, 0, 45)
    && pd[3] == DateTime(2021, 12, 5, 13, 0, 45)
    && pd[4] == DateTime(2021, 12, 8, 10, 0, 45)
    && pd[5] == DateTime(2021, 12, 12, 9, 0, 45)
    && pd[6] == DateTime(2021, 12, 16, 11, 5, 45)
    && pd[7] == DateTime(2021, 12, 17, 12, 5, 45)
    && pd[8] == DateTime(2021, 12, 18, 12, 5, 45)
    && pd[9] == DateTime(2021, 12, 19, 10, 5, 45)
    && pd[10] == DateTime(2021, 12, 20, 8, 5, 45)
    && pd[11] == DateTime(2021, 12, 21, 7, 5, 45)
    && pd[12] == DateTime(2021, 12, 22, 7, 5, 45)
    && pd[13] == DateTime(2021, 12, 23, 5, 5, 45)
    && pd[14] == DateTime(2021, 12, 24, 5, 5, 45)
    && pd[15] == DateTime(2021, 12, 30, 7, 5, 45)
    && pd[16] == DateTime(2021, 12, 31, 12, 5, 45)
    && pd[17] == DateTime(2022, 1, 1, 5, 5, 45)
    && pd[18] == DateTime(2022, 1, 2, 7, 5, 45)
  }

  /** The daily walk over the first 3 checkoffs of habit 2. */
  lemma SleepWalk3(pd: seq<ValidDateTime>)
    requires IsSleepDates(pd)
    ensures Walk(Daily, pd, DefaultDeltaHours, 3) == WalkState(pd[3], 3, 3, Completed)
  {
    FirstCheckoffStartsStreak(Daily, pd, DefaultDeltaHours);
    YearStarts2020To2023();
    WalkStep(Daily, pd, DefaultDeltaHours, 1);
    assert Walk(Daily, pd, DefaultDeltaHours, 2) == WalkState(pd[2], 2, 2, Completed);
    WalkStep(Daily, pd, DefaultDeltaHours, 2);
  }

  /** The daily walk over the first 5 checkoffs of habit 2. */
  lemma SleepWalk5(pd: seq<ValidDateTime>)
    requires IsSleepDates(pd)
    ensures Walk(Daily, pd, DefaultDeltaHours, 5) == WalkState(pd[5], 1, 3, Broken)
  {
    SleepWalk3(pd);
    YearStarts2020To2023();
    WalkStep(Daily, pd, DefaultDeltaHours, 3);
    assert Walk(Daily, pd, DefaultDeltaHours, 4) == WalkState(pd[4], 1, 3, Broken);
    WalkStep(Daily, pd, DefaultDeltaHours, 4);
  }

  /** The daily walk over the first 7 checkoffs of habit 2. */
  lemma SleepWalk7(pd: seq<ValidDateTime>)
    requires IsSleepDates(pd)
    ensures Walk(Daily, pd, DefaultDeltaHours, 7) == WalkState(pd[7], 2, 3, Completed)
  {
    SleepWalk5(pd);
    YearStarts2020To2023();
    WalkStep(Daily, pd, DefaultDeltaHours, 5);
    assert Walk(Daily, pd, DefaultDeltaHours, 6) == WalkState(pd[6], 1, 3, Broken);
    WalkStep(Daily, pd, DefaultDeltaHours, 6);
  }

  /** The daily walk over the first 9 checkoffs of habit 2. */
  lemma SleepWalk9(pd: seq<ValidDateTime>)
    requires IsSleepDates(pd)
    ensures Walk(Daily, pd, DefaultDeltaHours, 9) == WalkState(pd[9], 4, 4, Completed)
  {
    SleepWalk7(pd);
    YearStarts2020To2023();
    WalkStep(Daily, pd, DefaultDeltaHours, 7);
    assert Walk(Daily, pd, DefaultDeltaHours, 8) == WalkState(pd[8], 3, 3, Completed);
    WalkStep(Daily, pd, DefaultDeltaHours, 8);
  }

  /** The daily walk over the first 11 checkoffs of habit 2. */
  lemma SleepWalk11(pd: seq<ValidDateTime>)
    requires IsSleepDates(pd)
    ensures Walk(Daily, pd, DefaultDeltaHours, 11) == WalkState(pd[11], 6, 6, Completed)
  {
    SleepWalk9(pd);
    YearStarts2020To2023();
    WalkStep(Daily, pd, DefaultDeltaHours, 9);
    assert Walk(Daily, pd, DefaultDeltaHours, 10) == WalkState(pd[10], 5, 5, Completed);
    WalkStep(Daily, pd, DefaultDeltaHours, 10);
  }

  /** The daily walk over the first 13 checkoffs of habit 2. */
  lemma SleepWalk13(pd: seq<ValidDateTime>)
    requires IsSleepDates(pd)
    ensures Walk(Daily, pd, DefaultDeltaHours, 13) == WalkState(pd[13], 8, 8, Completed)
  {
    SleepWalk11(pd);
    YearStarts2020To2023();
    WalkStep(Daily, pd, DefaultDeltaHours, 11);
    assert Walk(Daily, pd, DefaultDeltaHours, 12) == WalkState(pd[12], 7, 7, Completed);
    WalkStep(Daily, pd, DefaultDeltaHours, 12);
  }

  /** The daily walk over the first 15 checkoffs of habit 2. */
  lemma SleepWalk15(pd: seq<ValidDateTime>)
    requires IsSleepDates(pd)
    ensures Walk(Daily, pd, DefaultDeltaHours, 15) == WalkState(pd[15], 1, 9, Broken)
  {
    SleepWalk13(pd);
    YearStarts2020To2023();
    WalkStep(Daily, pd, DefaultDeltaHours, 13);
    assert Walk(Daily, pd, DefaultDeltaHours, 14) == WalkState(pd[14], 9, 9, Completed);
    WalkStep(Daily, pd, DefaultDeltaHours, 14);
  }

  /** The daily walk over the first 17 checkoffs of habit 2. */
  lemma SleepWalk17(pd: seq<ValidDateTime>)
    requires IsSleepDates(pd)
    ensures Walk(Daily, pd, DefaultDeltaHours, 17) == WalkState(pd[17], 3, 9, Completed)
  {
    SleepWalk15(pd);
    YearStarts2020To2023();
    WalkStep(Daily, pd, DefaultDeltaHours, 15);
    assert Walk(Daily, pd, DefaultDeltaHours, 16) == WalkState(pd[16], 2, 9, Completed);
    WalkStep(Daily, pd, DefaultDeltaHours, 16);
  }

  /** The daily walk over all 18 checkoffs of habit 2. */
  lemma SleepWalk18(pd: seq<ValidDateTime>)
    requires IsSleepDates(pd)
    ensures Walk(Daily, pd, DefaultDeltaHours, 18) == WalkState(pd[18], 4, 9, Completed)
  {
    SleepWalk17(pd);
    YearStarts2020To2023();
    WalkStep(Daily, pd, DefaultDeltaHours, 17);
  }

  /** The checkoffs of habit 3 (weekly) in Europe/Berlin local time, behind the sentinel. */
  const CleaningDates: seq<ValidDateTime> := [
    Sentinel,
    DateTime(2021, 11, 30, 6, 11, 9),
    DateTime(2021, 12, 8, 7, 11, 9),
    DateTime(2021, 12, 12, 7, 11, 9),
    DateTime(2021, 12, 15, 7, 11, 9),
    DateTime(2021, 12, 16, 7, 11, 9),
    DateTime(2021, 12, 17, 8, 11, 9),
    DateTime(2021, 12, 18, 8, 11, 9),
    DateTime(2021, 12, 22, 8, 11, 9),
    DateTime(2021, 12, 28, 8, 11, 9),
    DateTime(2022, 1, 5, 8, 11, 9),
    DateTime(2022, 1, 13, 8, 11, 9),
    DateTime(2022, 1, 13, 9, 0, 0)
  ]

  /** `pd` lists the sentinel and the checkoffs of habit 3, in storage order. */
  predicate IsCleaningDates(pd: seq<ValidDateTime>) {
    && |pd| == 13
    && pd[0] == Sentinel
    && pd[1] == DateTime(2021, 11, 30, 6, 11, 9)
    && pd[2] == DateTime(2021, 12, 8, 7, 11, 9)
    && pd[3] == DateTime(2021, 12, 12, 7, 11, 9)
    && pd[4] == DateTime(2021, 12, 15, 7, 11, 9)
    && pd[5] == DateTime(2021, 12, 16, 7, 11, 9)
    && pd[6] == DateTime(2021, 12, 17, 8, 11, 9)
    && pd[7] == DateTime(2021, 12, 18, 8, 11, 9)
    && pd[8] == DateTime(2021, 12, 22, 8, 11, 9)
    && pd[9] == DateTime(2021, 12, 28, 8, 11, 9)
    && pd[10] == DateTime(2022, 1, 5, 8, 11, 9)
    && pd[11] == DateTime(2022, 1, 13, 8, 11, 9)
    && pd[12] == DateTime(2022, 1, 13, 9, 0, 0)
  }

  /** The weekly walk over the first 3 checkoffs of habit 3. */
  lemma CleaningWalk3(pd: seq<ValidDateTime>)
    requires IsCleaningDates(pd)
    ensures Walk(Weekly, pd, DefaultDeltaHours, 3) == WalkState(pd[2], 2, 2, AlreadyLogged)
  {
    FirstCheckoffStartsStreak(Weekly, pd, DefaultDeltaHours);
    CleaningStep2(DateTime(2021, 11, 30, 6, 11, 9),
                  DateTime(2021, 12, 8, 7, 11, 9));
    WalkStepWith(Weekly, pd, DefaultDeltaHours, 1,
                 DateTime(2021, 11, 30, 6, 11, 9), DateTime(2021, 12, 8, 7, 11, 9), InTime);
    assert Walk(Weekly, pd, DefaultDeltaHours, 2) == WalkState(pd[2], 2, 2, Completed);
    CleaningStep3(DateTime(2021, 12, 8, 7, 11, 9),
                  DateTime(2021, 12, 12, 7, 11, 9));
    WalkStepWith(Weekly, pd, DefaultDeltaHours, 2,
                 DateTime(2021, 12, 8, 7, 11, 9), DateTime(2021, 12, 12, 7, 11, 9), Logged);
  }

  /** The weekly walk over the first 5 checkoffs of habit 3. */
  lemma CleaningWalk5(pd: seq<ValidDateTime>)
    requires IsCleaningDates(pd)
    ensures Walk(Weekly, pd, DefaultDeltaHours, 5) == WalkState(pd[4], 3, 3, AlreadyLogged)
  {
    CleaningWalk3(pd);
    CleaningStep4(DateTime(2021, 12, 8, 7, 11, 9),
                  DateTime(2021, 12, 15, 7, 11, 9));
    WalkStepWith(Weekly, pd, DefaultDeltaHours, 3,
                 DateTime(2021, 12, 8, 7, 11, 9), DateTime(2021, 12, 15, 7, 11, 9), InTime);
    assert Walk(Weekly, pd, DefaultDeltaHours, 4) == WalkState(pd[4], 3, 3, Completed);
    CleaningStep5(DateTime(2021, 12, 15, 7, 11, 9),
                  DateTime(2021, 12, 16, 7, 11, 9));
    WalkStepWith(Weekly, pd, DefaultDeltaHours, 4,
                 DateTime(2021, 12, 15, 7, 11, 9), DateTime(2021, 12, 16, 7, 11, 9), Logged);
  }

  /** The weekly walk over the first 7 checkoffs of habit 3. */
  lemma CleaningWalk7(pd: seq<ValidDateTime>)
    requires IsCleaningDates(pd)
    ensures Walk(Weekly, pd, DefaultDeltaHours, 7) == WalkState(pd[4], 3, 3, AlreadyLogged)
  {
    CleaningWalk5(pd);
    CleaningStep6(DateTime(2021, 12, 15, 7, 11, 9),
                  DateTime(2021, 12, 17, 8, 11, 9));
    WalkStepWith(Weekly, pd, DefaultDeltaHours, 5,
                 DateTime(2021, 12, 15, 7, 11, 9), DateTime(2021, 12, 17, 8, 11, 9), Logged);
    assert Walk(Weekly, pd, DefaultDeltaHours, 6) == WalkState(pd[4], 3, 3, AlreadyLogged);
    CleaningStep7(DateTime(2021, 12, 15, 7, 11, 9),
                  DateTime(2021, 12, 18, 8, 11, 9));
    WalkStepWith(Weekly, pd, DefaultDeltaHours, 6,
                 DateTime(2021, 12, 15, 7, 11, 9), DateTime(2021, 12, 18, 8, 11, 9), Logged);
  }

  /** The weekly walk over the first 9 checkoffs of habit 3. */
  lemma CleaningWalk9(pd: seq<ValidDateTime>)
    requires IsCleaningDates(pd)
    ensures Walk(Weekly, pd, DefaultDeltaHours, 9) == WalkState(pd[9], 5, 5, Completed)
  {
    CleaningWalk7(pd);
    CleaningStep8(DateTime(2021, 12, 15, 7, 11, 9),
                  DateTime(2021, 12, 22, 8, 11, 9));
    WalkStepWith(Weekly, pd, DefaultDeltaHours, 7,
                 DateTime(2021, 12, 15, 7, 11, 9), DateTime(2021, 12, 22, 8, 11, 9), InTime);
    assert Walk(Weekly, pd, DefaultDeltaHours, 8) == WalkState(pd[8], 4, 4, Completed);
    CleaningStep9(DateTime(2021, 12, 22, 8, 11, 9),
                  DateTime(2021, 12, 28, 8, 11, 9));
    WalkStepWith(Weekly, pd, DefaultDeltaHours, 8,
                 DateTime(2021, 12, 22, 8, 11, 9), DateTime(2021, 12, 28, 8, 11, 9), InTime);
  }

  /** The weekly walk over the first 11 checkoffs of habit 3. */
  lemma CleaningWalk11(pd: seq<ValidDateTime>)
    requires IsCleaningDates(pd)
    ensures Walk(Weekly, pd, DefaultDeltaHours, 11) == WalkState(pd[11], 7, 7, Completed)
  {
    CleaningWalk9(pd);
    CleaningStep10(DateTime(2021, 12, 28, 8, 11, 9),
                   DateTime(2022, 1, 5, 8, 11, 9));
    WalkStepWith(Weekly, pd, DefaultDeltaHours, 9,
                 DateTime(2021, 12, 28, 8, 11, 9), DateTime(2022, 1, 5, 8, 11, 9), InTime);
    assert Walk(Weekly, pd, DefaultDeltaHours, 10) == WalkState(pd[10], 6, 6, Completed);
    CleaningStep11(DateTime(2022, 1, 5, 8, 11, 9),
                   DateTime(2022, 1, 13, 8, 11, 9));
    WalkStepWith(Weekly, pd, DefaultDeltaHours, 10,
                 DateTime(2022, 1, 5, 8, 11, 9), DateTime(2022, 1, 13, 8, 11, 9), InTime);
  }

  /** The weekly walk over all 12 checkoffs of habit 3. */
  lemma CleaningWalk12(pd: seq<ValidDateTime>)
    requires IsCleaningDates(pd)
    ensures Walk(Weekly, pd, DefaultDeltaHours, 12) == WalkState(pd[11], 7, 7, AlreadyLogged)
  {
    CleaningWalk11(pd);
    CleaningStep12(DateTime(2022, 1, 13, 8, 11, 9),
                   DateTime(2022, 1, 13, 9, 0, 0));
    WalkStepWith(Weekly, pd, DefaultDeltaHours, 11,
                 DateTime(2022, 1, 13, 8, 11, 9), DateTime(2022, 1, 13, 9, 0, 0), Logged);
  }

  /** The checkoffs of habit 4 (weekly) in Europe/Berlin local time, behind the sentinel. */
  const WorkoutDates: seq<ValidDateTime> := [
    Sentinel,
    DateTime(2021, 11, 29, 8, 11, 9),
    DateTime(2021, 12, 2, 8, 11, 9),
    DateTime(2021, 12, 5, 8, 11, 9),
    DateTime(2021, 12, 23, 8, 11, 9),
    DateTime(2022, 1, 6, 8, 11, 9),
    DateTime(2022, 1, 13, 8, 11, 9),
    DateTime(2022, 1, 19, 11, 21, 45),
    DateTime(2022, 1, 28, 11, 21, 45),
    DateTime(2022, 2, 2, 11, 21, 45),
    DateTime(2022, 2, 16, 11, 21, 45),
    DateTime(2022, 2, 22, 11, 21, 45)
  ]

  /** `pd` lists the sentinel and the checkoffs of habit 4, in storage order. */
  predicate IsWorkoutDates(pd: seq<ValidDateTime>) {
    && |pd| == 12
    && pd[0] == Sentinel
    && pd[1] == DateTime(2021, 11, 29, 8, 11, 9)
    && pd[2] == DateTime(2021, 12, 2, 8, 11, 9)
    && pd[3] == DateTime(2021, 12, 5, 8, 11, 9)
    && pd[4] == DateTime(2021, 12, 23, 8, 11, 9)
    && pd[5] == DateTime(2022, 1, 6, 8, 11, 9)
    && pd[6] == DateTime(2022, 1, 13, 8, 11, 9)
    && pd[7] == DateTime(2022, 1, 19, 11, 21, 45)
    && pd[8] == DateTime(2022, 1, 28, 11, 21, 45)
    && pd[9] == DateTime(2022, 2, 2, 11, 21, 45)
    && pd[10] == DateTime(2022, 2, 16, 11, 21, 45)
    && pd[11] == DateTime(2022, 2, 22, 11, 21, 45)
  }

  /** The weekly walk over the first 3 checkoffs of habit 4. */
  lemma WorkoutWalk3(pd: seq<ValidDateTime>)
    requires IsWorkoutDates(pd)
    ensures Walk(Weekly, pd, DefaultDeltaHours, 3) == WalkState(pd[1], 1, 1, AlreadyLogged)
  {
    FirstCheckoffStartsStreak(Weekly, pd, DefaultDeltaHours);
    WorkoutStep2(DateTime(2021, 11, 29, 8, 11, 9),
                 DateTime(2021, 12, 2, 8, 11, 9));
    WalkStepWith(Weekly, pd, DefaultDeltaHours, 1,
                 DateTime(2021, 11, 29, 8, 11, 9), DateTime(2021, 12, 2, 8, 11, 9), Logged);
    assert Walk(Weekly, pd, DefaultDeltaHours, 2) == WalkState(pd[1], 1, 1, AlreadyLogged);
    WorkoutStep3(DateTime(2021, 11, 29, 8, 11, 9),
                 DateTime(2021, 12, 5, 8, 11, 9));
    WalkStepWith(Weekly, pd, DefaultDeltaHours, 2,
                 DateTime(2021, 11, 29, 8, 11, 9), DateTime(2021, 12, 5, 8, 11, 9), Logged);
  }

  /** The weekly walk over the first 5 checkoffs of habit 4. */
  lemma WorkoutWalk5(pd: seq<ValidDateTime>)
    requires IsWorkoutDates(pd)
    ensures Walk(Weekly, pd, DefaultDeltaHours, 5) == WalkState(pd[5], 1, 1, Broken)
  {
    WorkoutWalk3(pd);
    WorkoutStep4(DateTime(2021, 11, 29, 8, 11, 9),
                 DateTime(2021, 12, 23, 8, 11, 9));
    WalkStepWith(Weekly, pd, DefaultDeltaHours, 3,
                 DateTime(2021, 11, 29, 8, 11, 9), DateTime(2021, 12, 23, 8, 11, 9), Reset);
    assert Walk(Weekly, pd, DefaultDeltaHours, 4) == WalkState(pd[4], 1, 1, Broken);
    WorkoutStep5(DateTime(2021, 12, 23, 8, 11, 9),
                 DateTime(2022, 1, 6, 8, 11, 9));
    WalkStepWith(Weekly, pd, DefaultDeltaHours, 4,
                 DateTime(2021, 12, 23, 8, 11, 9), DateTime(2022, 1, 6, 8, 11, 9), Reset);
  }

  /** The weekly walk over the first 7 checkoffs of habit 4. */
  lemma WorkoutWalk7(pd: seq<ValidDateTime>)
    requires IsWorkoutDates(pd)
    ensures Walk(Weekly, pd, DefaultDeltaHours, 7) == WalkState(pd[7], 3, 3, Completed)
  {
    WorkoutWalk5(pd);
    WorkoutStep6(DateTime(2022, 1, 6, 8, 11, 9),
                 DateTime(2022, 1, 13, 8, 11, 9));
    WalkStepWith(Weekly, pd, DefaultDeltaHours, 5,
                 DateTime(2022, 1, 6, 8, 11, 9), DateTime(2022, 1, 13, 8, 11, 9), InTime);
    assert Walk(Weekly, pd, DefaultDeltaHours, 6) == WalkState(pd[6], 2, 2, Completed);
    WorkoutStep7(DateTime(2022, 1, 13, 8, 11, 9),
                 DateTime(2022, 1, 19, 11, 21, 45));
    WalkStepWith(Weekly, pd, DefaultDeltaHours, 6,
                 DateTime(2022, 1, 13, 8, 11, 9), DateTime(2022, 1, 19, 11, 21, 45), InTime);
  }

  /** The weekly walk over the first 9 checkoffs of habit 4. */
  lemma WorkoutWalk9(pd: seq<ValidDateTime>)
    requires IsWorkoutDates(pd)
    ensures Walk(Weekly, pd, DefaultDeltaHours, 9) == WalkState(pd[9], 5, 5, Completed)
  {
    WorkoutWalk7(pd);
    WorkoutStep8(DateTime(2022, 1, 19, 11, 21, 45),
                 DateTime(2022, 1, 28, 11, 21, 45));
    WalkStepWith(Weekly, pd, DefaultDeltaHours, 7,
                 DateTime(2022, 1, 19, 11, 21, 45), DateTime(2022, 1, 28, 11, 21, 45), InTime);
    assert Walk(Weekly, pd, DefaultDeltaHours, 8) == WalkState(pd[8], 4, 4, Completed);
    WorkoutStep9(DateTime(2022, 1, 28, 11, 21, 45),
                 DateTime(2022, 2, 2, 11, 21, 45));
    WalkStepWith(Weekly, pd, DefaultDeltaHours, 8,
                 DateTime(2022, 1, 28, 11, 21, 45), DateTime(2022, 2, 2, 11, 21, 45), InTime);
  }

  /** The weekly walk over all 11 checkoffs of habit 4. */
  lemma WorkoutWalk11(pd: seq<ValidDateTime>)
    requires IsWorkoutDates(pd)
    ensures Walk(Weekly, pd, DefaultDeltaHours, 11) == WalkState(pd[11], 2, 5, Completed)
  {
    WorkoutWalk9(pd);
    WorkoutStep10(DateTime(2022, 2, 2, 11, 21, 45),
                  DateTime(2022, 2, 16, 11, 21, 45));
    WalkStepWith(Weekly, pd, DefaultDeltaHours, 9,
                 DateTime(2022, 2, 2, 11, 21, 45), DateTime(2022, 2, 16, 11, 21, 45), Reset);
    assert Walk(Weekly, pd, DefaultDeltaHours, 10) == WalkState(pd[10], 1, 5, Broken);
    WorkoutStep11(DateTime(2022, 2, 16, 11, 21, 45),
                  DateTime(2022, 2, 22, 11, 21, 45));
    WalkStepWith(Weekly, pd, DefaultDeltaHours, 10,
                 DateTime(2022, 2, 16, 11, 21, 45), DateTime(2022, 2, 22, 11, 21, 45), InTime);
  }

  /** The checkoffs of habit 5 (monthly) in Europe/Berlin local time, behind the sentinel. */
  const FamilyDates: seq<ValidDateTime> := [
    Sentinel,
    DateTime(2021, 11, 30, 10, 11, 9),
    DateTime(2021, 12, 7, 3, 11, 9),
    DateTime(2021, 12, 23, 3, 11, 9),
    DateTime(2022, 1, 22, 11, 21, 45),
    DateTime(2022, 2, 4, 3, 11, 9),
    DateTime(2022, 4, 10, 11, 21, 45),
    DateTime(2022, 5, 28, 11, 21, 45),
    DateTime(2022, 5, 30, 11, 21, 45),
    DateTime(2022, 7, 1, 11, 21, 45)
  ]

  /** `pd` lists the sentinel and the checkoffs of habit 5, in storage order. */
  predicate IsFamilyDates(pd: seq<ValidDateTime>) {
    && |pd| == 10
    && pd[0] == Sentinel
    && pd[1] == DateTime(2021, 11, 30, 10, 11, 9)
    && pd[2] == DateTime(2021, 12, 7, 3, 11, 9)
    && pd[3] == DateTime(2021, 12, 23, 3, 11, 9)
    && pd[4] == DateTime(2022, 1, 22, 11, 21, 45)
    && pd[5] == DateTime(2022, 2, 4, 3, 11, 9)
    && pd[6] == DateTime(2022, 4, 10, 11, 21, 45)
    && pd[7] == DateTime(2022, 5, 28, 11, 21, 45)
    && pd[8] == DateTime(2022, 5, 30, 11, 21, 45)
    && pd[9] == DateTime(2022, 7, 1, 11, 21, 45)
  }

  /** The monthly walk over the first 3 checkoffs of habit 5. */
  lemma FamilyWalk3(pd: seq<ValidDateTime>)
    requires IsFamilyDates(pd)
    ensures Walk(Monthly, pd, DefaultDeltaHours, 3) == WalkState(pd[2], 2, 2, AlreadyLogged)
  {
    FirstCheckoffStartsStreak(Monthly, pd, DefaultDeltaHours);
    YearStarts2020To2023();
    WalkStep(Monthly, pd, DefaultDeltaHours, 1);
    assert Walk(Monthly, pd, DefaultDeltaHours, 2) == WalkState(pd[2], 2, 2, Completed);
    WalkStep(Monthly, pd, DefaultDeltaHours, 2);
  }

  /** The monthly walk over the first 5 checkoffs of habit 5. */
  lemma FamilyWalk5(pd: seq<ValidDateTime>)
    requires IsFamilyDates(pd)
    ensures Walk(Monthly, pd, DefaultDeltaHours, 5) == WalkState(pd[5], 4, 4, Completed)
  {
    FamilyWalk3(pd);
    YearStarts2020To2023();
    WalkStep(Monthly, pd, DefaultDeltaHours, 3);
    assert Walk(Monthly, pd, DefaultDeltaHours, 4) == WalkState(pd[4], 3, 3, Completed);
    WalkStep(Monthly, pd, DefaultDeltaHours, 4);
  }

  /** The monthly walk over the first 7 checkoffs of habit 5. */
  lemma FamilyWalk7(pd: seq<ValidDateTime>)
    requires IsFamilyDates(pd)
    ensures Walk(Monthly, pd, DefaultDeltaHours, 7) == WalkState(pd[7], 2, 4, Completed)
  {
    FamilyWalk5(pd);
    YearStarts2020To2023();
    WalkStep(Monthly, pd, DefaultDeltaHours, 5);
    assert Walk(Monthly, pd, DefaultDeltaHours, 6) == WalkState(pd[6], 1, 4, Broken);
    WalkStep(Monthly, pd, DefaultDeltaHours, 6);
  }

  /** The monthly walk over all 9 checkoffs of habit 5. */
  lemma FamilyWalk9(pd: seq<ValidDateTime>)
    requires IsFamilyDates(pd)
    ensures Walk(Monthly, pd, DefaultDeltaHours, 9) == WalkState(pd[9], 1, 4, Broken)
  {
    FamilyWalk7(pd);
    YearStarts2020To2023();
    WalkStep(Monthly, pd, DefaultDeltaHours, 7);
    assert Walk(Monthly, pd, DefaultDeltaHours, 8) == WalkState(pd[7], 2, 4, AlreadyLogged);
    WalkStep(Monthly, pd, DefaultDeltaHours, 8);
  }

  /** Rows stored for the checkoffs `pd[1..]` normalize back to `pd`. */
  lemma NormalizedDates(pd: seq<ValidDateTime>)
    requires |pd| >= 1 && pd[0] == Sentinel
    ensures Normalized(Stored(pd[1..])) == Success(pd)
  {
    NormalizeStored(pd[1..]);
    assert [Sentinel] + pd[1..] == pd;
  }

  /** Habit 1, daily: current and maximum streak 26, status completed. */
  lemma StudyStreaks(h: Habit, pd: seq<ValidDateTime>)
    requires IsStudyDates(pd) && h.periodicity == "daily" && h.checkoffs == Stored(pd[1..])
    ensures StreakOf(h, true) == Success(Report(26, Completed))
    ensures StreakOf(h, false) == Success(Report(26, Completed))
  {
    NormalizedDates(pd);
    StudyWalk35(pd);
  }

  /** Habit 2, daily: maximum streak 9, current streak 4. */
  lemma SleepStreaks(h: Habit, pd: seq<ValidDateTime>)
    requires IsSleepDates(pd) && h.periodicity == "daily" && h.checkoffs == Stored(pd[1..])
    ensures StreakOf(h, true) == Success(Report(9, Completed))
    ensures StreakOf(h, false) == Success(Report(4, Completed))
  {
    NormalizedDates(pd);
    SleepWalk18(pd);
  }

  /** Habit 3, weekly: current and maximum streak 7, status already logged. */
  lemma CleaningStreaks(h: Habit, pd: seq<ValidDateTime>)
    requires IsCleaningDates(pd) && h.periodicity == "weekly" && h.checkoffs == Stored(pd[1..])
    ensures StreakOf(h, true) == Success(Report(7, AlreadyLogged))
    ensures StreakOf(h, false) == Success(Report(7, AlreadyLogged))
  {
    NormalizedDates(pd);
    CleaningWalk12(pd);
  }

  /** Habit 4, weekly: maximum streak 5, current streak 2. */
  lemma WorkoutStreaks(h: Habit, pd: seq<ValidDateTime>)
    requires IsWorkoutDates(pd) && h.periodicity == "weekly" && h.checkoffs == Stored(pd[1..])
    ensures StreakOf(h, true) == Success(Report(5, Completed))
    ensures StreakOf(h, false) == Success(Report(2, Completed))
  {
    NormalizedDates(pd);
    WorkoutWalk11(pd);
  }

  /** Habit 5, monthly: maximum streak 4, current streak 1, status broken. */
  lemma FamilyStreaks(h: Habit, pd: seq<ValidDateTime>)
    requires IsFamilyDates(pd) && h.periodicity == "monthly" && h.checkoffs == Stored(pd[1..])
    ensures StreakOf(h, true) == Success(Report(4, Broken))
    ensures StreakOf(h, false) == Success(Report(1, Broken))
  {
    NormalizedDates(pd);
    FamilyWalk9(pd);
  }

  /** The five habits as stored, given their walk lists. */
  function SeededHabits(study: seq<ValidDateTime>, sleep: seq<ValidDateTime>, cleaning: seq<ValidDateTime>,
                        workout: seq<ValidDateTime>, family: seq<ValidDateTime>): seq<Habit>
    requires |study| >= 1 && |sleep| >= 1 && |cleaning| >= 1 && |workout| >= 1 && |family| >= 1
  {
    [Habit(1, "daily", Stored(study[1..])), Habit(2, "daily", Stored(sleep[1..])),
     Habit(3, "weekly", Stored(cleaning[1..])), Habit(4, "weekly", Stored(workout[1..])),
     Habit(5, "monthly", Stored(family[1..]))]
  }

  /** One more habit whose maximum streak is `v` extends the list of
      maximum streaks by `v`. */
  lemma MaxStreaksStep(habits: seq<Habit>, n: nat, values: seq<nat>, v: nat, status: Status)
    requires n < |habits| && MaxStreaks(habits, n) == Success(values)
    requires StreakOf(habits[n], true) == Success(Report(v, status))
    ensures MaxStreaks(habits, n + 1) == Success(values + [v])
  {
  }

  /** Five habits with ids 1 to 5 and maximum streaks 26, 9, 7, 5 and 4:
      the longest streak of all is 26, reached by habit 1 alone. */
  lemma SeededAggregate(habits: seq<Habit>)
    requires |habits| == 5
    requires forall i :: 0 <= i < 5 ==> habits[i].id == i + 1
    requires StreakOf(habits[0], true).Success? && StreakOf(habits[0], true).value.value == 26
    requires StreakOf(habits[1], true).Success? && StreakOf(habits[1], true).value.value == 9
    requires StreakOf(habits[2], true).Success? && StreakOf(habits[2], true).value.value == 7
    requires StreakOf(habits[3], true).Success? && StreakOf(habits[3], true).value.value == 5
    requires StreakOf(habits[4], true).Success? && StreakOf(habits[4], true).value.value == 4
    ensures MaxStreaks(habits, 5) == Success([26, 9, 7, 5, 4])
    ensures Ids(habits, 5) == [1, 2, 3, 4, 5]
    ensures Largest([26, 9, 7, 5, 4]) == 26 && TiedIds(Ids(habits, 5), [26, 9, 7, 5, 4], 26) == [1]
  {
    SeededAppends();
    MaxStreaksStep(habits, 0, [], 26, StreakOf(habits[0], true).value.status);
    MaxStreaksStep(habits, 1, [26], 9, StreakOf(habits[1], true).value.status);
    MaxStreaksStep(habits, 2, [26, 9], 7, StreakOf(habits[2], true).value.status);
    MaxStreaksStep(habits, 3, [26, 9, 7], 5, StreakOf(habits[3], true).value.status);
    MaxStreaksStep(habits, 4, [26, 9, 7, 5], 4, StreakOf(habits[4], true).value.status);
    SeededIds(habits);
    SeededLongest();
  }

  /** The values of the seeded habits, one habit at a time. */
  lemma SeededAppends()
    ensures [] + [26] == [26] && [26] + [9] == [26, 9] && [26, 9] + [7] == [26, 9, 7]
    ensures [26, 9, 7] + [5] == [26, 9, 7, 5] && [26, 9, 7, 5] + [4] == [26, 9, 7, 5, 4]
  {
  }

  /** The ids of five habits numbered 1 to 5, in storage order. */
  lemma SeededIds(habits: seq<Habit>)
    requires |habits| == 5 && forall i :: 0 <= i < 5 ==> habits[i].id == i + 1
    ensures Ids(habits, 5) == [1, 2, 3, 4, 5]
  {
    assert Ids(habits, 1) == [] + [1] == [1];
    assert Ids(habits, 2) == [1] + [2] == [1, 2];
    assert Ids(habits, 3) == [1, 2] + [3] == [1, 2, 3];
    assert Ids(habits, 4) == [1, 2, 3] + [4] == [1, 2, 3, 4];
    assert Ids(habits, 5) == [1, 2, 3, 4] + [5];
  }

  /** Over the whole test database the maximum streaks are 26, 9, 7, 5 and
      4, and the longest streak of all is 26, reached by habit 1 alone. */
  lemma SeededLongestOfAll(study: seq<ValidDateTime>, sleep: seq<ValidDateTime>, cleaning: seq<ValidDateTime>,
                           workout: seq<ValidDateTime>, family: seq<ValidDateTime>)
    requires IsStudyDates(study) && IsSleepDates(sleep) && IsCleaningDates(cleaning)
    requires IsWorkoutDates(workout) && IsFamilyDates(family)
    ensures var habits := SeededHabits(study, sleep, cleaning, workout, family);
      && MaxStreaks(habits, 5) == Success([26, 9, 7, 5, 4])
      && Ids(habits, 5) == [1, 2, 3, 4, 5]
      && Largest([26, 9, 7, 5, 4]) == 26
      && TiedIds(Ids(habits, 5), [26, 9, 7, 5, 4], 26) == [1]
  {
    var habits := SeededHabits(study, sleep, cleaning, workout, family);
    assert forall i :: 0 <= i < 5 ==> habits[i].id == i + 1;
    StudyStreaks(habits[0], study);
    SleepStreaks(habits[1], sleep);
    CleaningStreaks(habits[2], cleaning);
    WorkoutStreaks(habits[3], workout);
    FamilyStreaks(habits[4], family);
    SeededAggregate(habits);
  }

  /** The listed checkoffs of habit 1 are the list the lemmas above describe. */
  lemma StudyDatesListed()
    ensures IsStudyDates(StudyDates)
  {
  }

  lemma SleepDatesListed()
    ensures IsSleepDates(SleepDates)
  {
  }

  lemma CleaningDatesListed()
    ensures IsCleaningDates(CleaningDates)
  {
  }

  lemma WorkoutDatesListed()
    ensures IsWorkoutDates(WorkoutDates)
  {
  }

  lemma FamilyDatesListed()
    ensures IsFamilyDates(FamilyDates)
  {
  }
}
