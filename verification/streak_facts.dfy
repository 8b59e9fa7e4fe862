/** What the walkers promise, proved about `Walk`: the state stays coherent,
    `count_max` is the running maximum of `count`, a daily streak of n means
    n consecutive calendar days with checkoffs, the first checkoff after
    the sentinel starts a streak and is never reported broken, and two
    checkoffs in one ISO week are one weekly checkoff. */
module StreakFacts {
  import opened Calendar
  import opened Streak

  /** The coherence `WalkCoherent` states, for one state. */
  predicate Coherent(s: WalkState, pd: seq<ValidDateTime>, k: nat)
    requires k < |pd|
  {
    && s.count <= s.countMax <= k
    && s.status != NoData
    && (s.status == Unset ==> s.countMax == 0)
    && (s.status == Broken ==> s.count == 1)
    && (s.status == Completed ==> s.count >= 1)
    && (s.count == 0 ==> s.anchor == pd[0])
    && (s.count >= 1 ==> exists i :: 1 <= i <= k && s.anchor == pd[i])
  }

  /** Whatever the transition, one step keeps the state coherent. */
  lemma ApplyCoherent(s: WalkState, t: Transition, pd: seq<ValidDateTime>, k: nat)
    requires 1 <= k < |pd| && Coherent(s, pd, k - 1)
    ensures Coherent(Apply(s, t, pd[k], pd[0]), pd, k)
  {
    if s.count >= 1 {
      var i :| 1 <= i <= k - 1 && s.anchor == pd[i];
      assert 1 <= i <= k && s.anchor == pd[i];
    }
  }

  /** After any prefix of the list: `count <= count_max <= k`; a status of
      0 means nothing has counted yet; status 3 (broken) is only set with a
      fresh count of 1; status 1 (completed) comes with a positive count;
      -1 never appears inside a walk; and a positive count belongs to an
      anchor that is one of the checkoffs, not the sentinel slot. */
  lemma {:induction false} WalkCoherent(rule: Rule, pd: seq<ValidDateTime>, k: nat)
    requires k < |pd|
    ensures Coherent(WalkWith(rule, pd, k), pd, k)
  {
    if k > 0 {
      WalkCoherent(rule, pd, k - 1);
      var before := WalkWith(rule, pd, k - 1);
      ApplyCoherent(before, rule(before.anchor, pd[k]), pd, k);
    }
  }

  /** One step: the maximum never decreases and covers the new count,
      and it is either the old maximum or the new count. */
  lemma ApplyMaximum(s: WalkState, t: Transition, candidate: ValidDateTime, sentinel: ValidDateTime)
    ensures var n := Apply(s, t, candidate, sentinel);
      s.countMax <= n.countMax && n.count <= n.countMax
      && (n.countMax == s.countMax || n.countMax == n.count)
  {
  }

  /** One step of the walk, in terms of `ApplyMaximum`. */
  lemma WalkMaximumStep(rule: Rule, pd: seq<ValidDateTime>, k: nat)
    requires 1 <= k < |pd|
    ensures var before, after := WalkWith(rule, pd, k - 1), WalkWith(rule, pd, k);
      before.countMax <= after.countMax && after.count <= after.countMax
      && (after.countMax == before.countMax || after.countMax == after.count)
  {
    var before := WalkWith(rule, pd, k - 1);
    ApplyMaximum(before, rule(before.anchor, pd[k]), pd[k], pd[0]);
  }

  /** `count_max` never decreases along the walk. */
  lemma {:induction false} MaximumMonotone(rule: Rule, pd: seq<ValidDateTime>, j: nat, k: nat)
    requires j <= k < |pd|
    ensures WalkWith(rule, pd, j).countMax <= WalkWith(rule, pd, k).countMax
    decreases k - j
  {
    if j < k {
      MaximumMonotone(rule, pd, j, k - 1);
      WalkMaximumStep(rule, pd, k);
    }
  }

  /** `count_max` after k steps is the count after some step j <= k. */
  lemma {:induction false} MaximumReached(rule: Rule, pd: seq<ValidDateTime>, k: nat)
    requires k < |pd|
    ensures exists j :: 0 <= j <= k && WalkWith(rule, pd, j).count == WalkWith(rule, pd, k).countMax
  {
    if k == 0 {
      assert WalkWith(rule, pd, 0).count == WalkWith(rule, pd, 0).countMax;
    } else {
      WalkMaximumStep(rule, pd, k);
      if WalkWith(rule, pd, k).countMax == WalkWith(rule, pd, k).count {
        assert WalkWith(rule, pd, k).count == WalkWith(rule, pd, k).countMax;
      } else {
        MaximumReached(rule, pd, k - 1);
        var j :| 0 <= j <= k - 1 && WalkWith(rule, pd, j).count == WalkWith(rule, pd, k - 1).countMax;
        assert WalkWith(rule, pd, j).count == WalkWith(rule, pd, k).countMax;
      }
    }
  }

  /** `count_max` never decreases, bounds every count reached so far and
      is one of them. */
  lemma RunningMaximum(rule: Rule, pd: seq<ValidDateTime>, k: nat)
    requires k < |pd|
    ensures forall j :: 0 <= j <= k ==> WalkWith(rule, pd, j).countMax <= WalkWith(rule, pd, k).countMax
    ensures forall j :: 0 <= j <= k ==> WalkWith(rule, pd, j).count <= WalkWith(rule, pd, k).countMax
    ensures exists j :: 0 <= j <= k && WalkWith(rule, pd, j).count == WalkWith(rule, pd, k).countMax
  {
    forall j | 0 <= j <= k
      ensures WalkWith(rule, pd, j).countMax <= WalkWith(rule, pd, k).countMax
      ensures WalkWith(rule, pd, j).count <= WalkWith(rule, pd, k).countMax
    {
      MaximumMonotone(rule, pd, j, k);
      WalkCoherent(rule, pd, j);
    }
    MaximumReached(rule, pd, k);
  }

  /** Some checkoff among `pd[1..k + 1]` falls on day number `day`. */
  predicate CheckedOnDay(pd: seq<ValidDateTime>, k: nat, day: int)
    requires k < |pd|
  {
    exists i :: 1 <= i <= k && pd[i].Ordinal() == day
  }

  /** A daily streak of n: each of the n calendar days ending on the
      anchor's day holds a checkoff. */
  lemma {:induction false} DailyStreakCoversDays(pd: seq<ValidDateTime>, deltaHours: int, k: nat)
    requires k < |pd|
    ensures var s := Walk(Daily, pd, deltaHours, k);
      forall day :: s.anchor.Ordinal() - s.count < day <= s.anchor.Ordinal() ==> CheckedOnDay(pd, k, day)
  {
    if k > 0 {
      DailyStreakCoversDays(pd, deltaHours, k - 1);
      WalkStep(Daily, pd, deltaHours, k - 1);
      var before, after := Walk(Daily, pd, deltaHours, k - 1), Walk(Daily, pd, deltaHours, k);
      var t := ClassifyDaily(before.anchor, pd[k], deltaHours);
      assert after == Apply(before, t, pd[k], pd[0]);
      forall day | after.anchor.Ordinal() - after.count < day <= after.anchor.Ordinal()
        ensures CheckedOnDay(pd, k, day)
      {
        if t == Logged || t == Unchanged {
          assert CheckedOnDay(pd, k - 1, day);
          var i :| 1 <= i <= k - 1 && pd[i].Ordinal() == day;
          assert 1 <= i <= k;
        } else if day == after.anchor.Ordinal() {
          assert pd[k].Ordinal() == day;
        } else {
          assert t == InTime && after.anchor.Ordinal() == before.anchor.Ordinal() + 1;
          assert CheckedOnDay(pd, k - 1, day);
          var i :| 1 <= i <= k - 1 && pd[i].Ordinal() == day;
          assert 1 <= i <= k;
        }
      }
    }
  }

  /** The first checkoff is compared with the sentinel, so no reset can
      report it as broken. */
  lemma FirstCheckoffNeverBroken(cadence: Cadence, pd: seq<ValidDateTime>, deltaHours: int)
    requires |pd| >= 2
    ensures Walk(cadence, pd, deltaHours, 1).status != Broken
  {
    assert Walk(cadence, pd, deltaHours, 0).anchor == pd[0];
  }

  /** Two date-times whose calendar years are at least two apart lie more
      than a year apart. */
  lemma YearsApart(a: ValidDateTime, b: ValidDateTime)
    requires a.year + 2 <= b.year
    ensures b.Ordinal() - a.Ordinal() > 365
    ensures Elapsed(a, b) > 365 * 86400
  {
    OrdinalWithinYear(a);
    OrdinalWithinYear(b);
    DaysBeforeYearMonotone(a.year + 1, b.year);
  }

  /** A first checkoff at least two calendar years after the sentinel
      starts a streak of one, status completed, whatever the cadence. Two
      years is a sufficient condition, not the boundary: a first checkoff
      can start the same streak earlier, depending on the cadence. */
  lemma FirstCheckoffStartsStreak(cadence: Cadence, pd: seq<ValidDateTime>, deltaHours: int)
    requires |pd| >= 2 && pd[0].year + 2 <= pd[1].year
    ensures Walk(cadence, pd, deltaHours, 1) == WalkState(pd[1], 1, 1, Completed)
  {
    YearsApart(pd[0], pd[1]);
    assert Walk(cadence, pd, deltaHours, 0) == WalkState(pd[0], 0, 0, Unset);
  }

  /** Two date-times in the same ISO week are at most six days apart. */
  lemma SameIsoWeekClose(anchor: ValidDateTime, candidate: ValidDateTime)
    requires IsoCalendar(anchor).isoYear == IsoCalendar(candidate).isoYear
    requires IsoCalendar(anchor).week == IsoCalendar(candidate).week
    ensures candidate.Ordinal() - anchor.Ordinal() <= 6
  {
    IsoCalendarIsWeekDate(anchor);
    IsoCalendarIsWeekDate(candidate);
  }

  /** Two date-times in the same ISO week, the later one second, lie in
      the same calendar year or in consecutive ones. */
  lemma SameIsoWeekYears(anchor: ValidDateTime, candidate: ValidDateTime)
    requires anchor.Ordinal() <= candidate.Ordinal()
    requires IsoCalendar(anchor).isoYear == IsoCalendar(candidate).isoYear
    requires IsoCalendar(anchor).week == IsoCalendar(candidate).week
    ensures candidate.year == anchor.year || candidate.year == anchor.year + 1
  {
    SameIsoWeekClose(anchor, candidate);
    OrdinalWithinYear(anchor);
    OrdinalWithinYear(candidate);
    if candidate.year < anchor.year {
      DaysBeforeYearMonotone(candidate.year + 1, anchor.year);
    } else if candidate.year >= anchor.year + 2 {
      YearsApart(anchor, candidate);
    }
  }

  /** Two checkoffs in the same ISO week, the later one second: the weekly
      rule reports the second as already logged. */
  lemma WeeklySameIsoWeekIsLogged(anchor: ValidDateTime, candidate: ValidDateTime, deltaHours: int)
    requires anchor.Ordinal() <= candidate.Ordinal()
    requires IsoCalendar(anchor).isoYear == IsoCalendar(candidate).isoYear
    requires IsoCalendar(anchor).week == IsoCalendar(candidate).week
    ensures ClassifyWeekly(anchor, candidate, deltaHours) == Logged
  {
    SameIsoWeekYears(anchor, candidate);
  }

  /** The daily rule: a checkoff on the next calendar day at least
      `deltaHours` after the anchor counts; otherwise one on the anchor's
      day, or less than 4 hours after it, is already logged, and any other
      breaks the streak. The rule never restarts or ignores a checkoff. */
  lemma ClassifyDailyMeaning(anchor: ValidDateTime, candidate: ValidDateTime, deltaHours: int)
    ensures var t := ClassifyDaily(anchor, candidate, deltaHours);
      && (t == InTime <==> candidate.Ordinal() == anchor.Ordinal() + 1
                           && Elapsed(anchor, candidate) >= deltaHours * 3600)
      && (t == Logged <==> t != InTime && (candidate.Ordinal() == anchor.Ordinal()
                                           || Elapsed(anchor, candidate) < AlreadyLoggedHours * 3600))
      && t != Restart && t != Unchanged
  {
  }

  /** The weekly rule: a checkoff in the anchor's ISO week number, in the
      same calendar year or the next, is already logged. One at least
      `deltaHours` later counts when it is in the next week number of the
      same calendar year, or in week 1 of the next calendar year when the
      date a week after the anchor is in week 1 too. A later week number
      of the same year resets, as does any other checkoff in another
      calendar year. Only a checkoff in the anchor's calendar year is ever
      ignored, and the rule never restarts. */
  lemma ClassifyWeeklyMeaning(anchor: ValidDateTime, candidate: ValidDateTime, deltaHours: int)
    ensures var t := ClassifyWeekly(anchor, candidate, deltaHours);
      && (t == Logged <==> (anchor.year == candidate.year || anchor.year + 1 == candidate.year)
                           && IsoCalendar(anchor).week == IsoCalendar(candidate).week)
      && (t == InTime <==> Elapsed(anchor, candidate) >= deltaHours * 3600
                           && (|| (anchor.year == candidate.year
                                   && IsoCalendar(candidate).week == IsoCalendar(anchor).week + 1)
                               || (anchor.year + 1 == candidate.year && IsoCalendar(candidate).week == 1
                                   && IsoCalendar(anchor).week != 1 && WeekNumberAWeekLater(anchor) == 1)))
      && (t == Reset <==> || (anchor.year == candidate.year
                              && IsoCalendar(candidate).week > IsoCalendar(anchor).week + 1)
                          || (anchor.year != candidate.year && t != Logged && t != InTime))
      && (t == Unchanged ==> anchor.year == candidate.year)
      && t != Restart
  {
  }

  /** The monthly rule: a checkoff in the anchor's month is already logged;
      one in the next month of the same year at least `deltaHours` later,
      or in any January of the next year, counts. A later, non-adjacent
      month of the same year, or a month other than January of the next
      year, resets; a checkoff neither in the anchor's year nor the next
      restarts the streak. An earlier month of the same year, or the next
      month less than `deltaHours` later, changes nothing. */
  lemma ClassifyMonthlyMeaning(anchor: ValidDateTime, candidate: ValidDateTime, deltaHours: int)
    ensures var t := ClassifyMonthly(anchor, candidate, deltaHours);
      && (t == Logged <==> anchor.year == candidate.year && anchor.month == candidate.month)
      && (t == InTime <==> || (anchor.year == candidate.year && candidate.month == anchor.month + 1
                               && Elapsed(anchor, candidate) >= deltaHours * 3600)
                           || (anchor.year + 1 == candidate.year && candidate.month == 1))
      && (t == Reset <==> || (anchor.year == candidate.year && candidate.month > anchor.month + 1)
                          || (anchor.year + 1 == candidate.year && candidate.month != 1))
      && (t == Restart <==> candidate.year != anchor.year && candidate.year != anchor.year + 1)
      && (t == Unchanged <==> anchor.year == candidate.year
                              && (|| candidate.month < anchor.month
                                  || (candidate.month == anchor.month + 1
                                      && Elapsed(anchor, candidate) < deltaHours * 3600)))
  {
  }

  /** The effect of each transition on a coherent state: an in-time
      checkoff extends the count and becomes the anchor; an already logged
      one keeps count and anchor; a reset or restart starts a new count of
      1 at the checkoff, reported broken unless the old anchor was the
      sentinel; an ignored one changes nothing. The maximum then rises to
      the count when the count reaches it. */
  lemma ApplyEffect(s: WalkState, t: Transition, candidate: ValidDateTime, sentinel: ValidDateTime)
    requires s.count <= s.countMax
    ensures var r := Apply(s, t, candidate, sentinel);
      && r.countMax == (if r.count > s.countMax then r.count else s.countMax)
      && (t == InTime ==> r.anchor == candidate && r.count == s.count + 1 && r.status == Completed)
      && (t == Logged ==> r.anchor == s.anchor && r.count == s.count && r.status == AlreadyLogged)
      && (t == Reset || t == Restart ==> r.anchor == candidate && r.count == 1)
      && (t == Reset ==> r.status == (if s.anchor != sentinel then Broken else Completed))
      && (t == Restart ==> r.status == Completed)
      && (t == Unchanged ==> r == s)
  {
  }

  /** A second checkoff on the anchor's calendar day is already logged for
      the daily rule, whatever the delta: the count, the maximum and the
      anchor stay. */
  lemma DailySameDayIsLogged(s: WalkState, candidate: ValidDateTime, sentinel: ValidDateTime, deltaHours: int)
    requires s.count <= s.countMax
    requires candidate.year == s.anchor.year && candidate.month == s.anchor.month && candidate.day == s.anchor.day
    ensures ClassifyDaily(s.anchor, candidate, deltaHours) == Logged
    ensures Apply(s, Logged, candidate, sentinel) == s.(status := AlreadyLogged)
  {
  }

  /** A second checkoff in the anchor's calendar month is already logged
      for the monthly rule, whatever the delta: the count, the maximum and
      the anchor stay. */
  lemma MonthlySameMonthIsLogged(s: WalkState, candidate: ValidDateTime, sentinel: ValidDateTime, deltaHours: int)
    requires s.count <= s.countMax
    requires candidate.year == s.anchor.year && candidate.month == s.anchor.month
    ensures ClassifyMonthly(s.anchor, candidate, deltaHours) == Logged
    ensures Apply(s, Logged, candidate, sentinel) == s.(status := AlreadyLogged)
  {
  }

  /** A checkoff in January of the year after the anchor counts for the
      monthly rule, whatever the anchor's month and however little time
      has passed. */
  lemma MonthlyJanuaryAlwaysCounts(anchor: ValidDateTime, candidate: ValidDateTime, deltaHours: int)
    requires candidate.year == anchor.year + 1 && candidate.month == 1
    ensures ClassifyMonthly(anchor, candidate, deltaHours) == InTime
  {
  }

  /** So a March anchor followed by a January checkoff ten months later
      extends the monthly streak. */
  lemma MonthlyGapOverYearEnd()
    ensures ClassifyMonthly(DateTime(2024, 3, 15, 12, 0, 0), DateTime(2025, 1, 15, 12, 0, 0), DefaultDeltaHours) == InTime
  {
    MonthlyJanuaryAlwaysCounts(DateTime(2024, 3, 15, 12, 0, 0), DateTime(2025, 1, 15, 12, 0, 0), DefaultDeltaHours);
  }

  /** The daily "already logged" guard ignores `delta_hours`: with a
      10-hour delta, a checkoff on the next day 9 hours later neither
      counts nor is already logged, it resets the streak. */
  lemma DailyGuardIgnoresDelta()
    ensures ClassifyDaily(DateTime(2024, 3, 4, 23, 0, 0), DateTime(2024, 3, 5, 8, 0, 0), 10) == Reset
  {
  }

  /** Day numbers of January 1st and of the Monday of ISO week 1, for the
      years around the end of 2025. */
  lemma YearStarts2024To2027()
    ensures DaysBeforeYear(2024) == 738885 && DaysBeforeYear(2025) == 739251
    ensures DaysBeforeYear(2026) == 739616 && DaysBeforeYear(2027) == 739981
    ensures IsoWeek1Monday(2024) == 738886 && IsoWeek1Monday(2025) == 739250
    ensures IsoWeek1Monday(2026) == 739614 && IsoWeek1Monday(2027) == 739985
  {
    DaysBeforeYearClosedForm(2024);
    DaysBeforeYearClosedForm(2025);
    DaysBeforeYearClosedForm(2026);
    DaysBeforeYearClosedForm(2027);
  }

  /** Monday 2025-12-29 is in ISO week 1 of 2026 while its calendar year is
      2025: after a checkoff on Monday 2025-12-22 (week 52) it changes
      nothing, and the checkoff of Monday 2026-01-05 (week 2) then breaks
      the streak although every week had one. */
  lemma WeeklyYearEndFallThrough()
    ensures IsoCalendar(DateTime(2025, 12, 22, 10, 0, 0)) == IsoDate(2025, 52, 1)
    ensures IsoCalendar(DateTime(2025, 12, 29, 10, 0, 0)) == IsoDate(2026, 1, 1)
    ensures IsoCalendar(DateTime(2026, 1, 5, 10, 0, 0)) == IsoDate(2026, 2, 1)
    ensures ClassifyWeekly(DateTime(2025, 12, 22, 10, 0, 0), DateTime(2025, 12, 29, 10, 0, 0), DefaultDeltaHours) == Unchanged
    ensures ClassifyWeekly(DateTime(2025, 12, 22, 10, 0, 0), DateTime(2026, 1, 5, 10, 0, 0), DefaultDeltaHours) == Reset
  {
    YearStarts2024To2027();
    assert DateTime(2025, 12, 22, 10, 0, 0).Ordinal() == 739607;
    assert DateTime(2025, 12, 29, 10, 0, 0).Ordinal() == 739614;
    assert DateTime(2026, 1, 5, 10, 0, 0).Ordinal() == 739621;
  }
}
