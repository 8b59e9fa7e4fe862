/** The entry points of the streak engine: `calculation_of_streaks` picks
    the walker for a habit's periodicity and reports the status -1 when
    there is no streak, and `calculate_longest_streak_of_all` finds the
    longest maximum streak over all habits and the habits that reach it. */
module Analytics {
  import opened Wrappers
  import opened Calendar
  import opened Timestamp
  import opened Normalizer
  import opened Streak
  import opened StreakFacts

  /** A stored habit as the streak engine reads it: its id, its
      periodicity and its log rows in insertion order. */
  datatype Habit = Habit(id: int, periodicity: string, checkoffs: seq<string>)

  datatype Error =
    | UnsupportedPeriodicity(periodicity: string)  // no walker runs and the int 0 cannot be subscripted
    | UnparsableCheckoff(row: string)               // `strptime` rejects this log row

  /** What `calculation_of_streaks` returns: the streak and its status. */
  datatype Report = Report(value: nat, status: Status)

  /** The cadence a periodicity string selects, if any. */
  function CadenceOf(periodicity: string): Option<Cadence> {
    if periodicity == "daily" then Some(Daily)
    else if periodicity == "weekly" then Some(Weekly)
    else if periodicity == "monthly" then Some(Monthly)
    else None
  }

  /** The report for habit `h`: the walk of its cadence over its
      normalized checkoffs with the default delta of 4 hours, its maximum
      or current count, and the final status, replaced by -1 when that
      count is 0. */
  function StreakOf(h: Habit, maxMode: bool): (r: Result<Report, Error>)
    ensures CadenceOf(h.periodicity).None? ==> r == Failure(UnsupportedPeriodicity(h.periodicity))
    ensures CadenceOf(h.periodicity).Some? ==> (r.Success? <==> Normalized(h.checkoffs).Success?)
    ensures r.Success? && r.value.value == 0 ==> r.value.status == NoData
  {
    match CadenceOf(h.periodicity)
    case None => Failure(UnsupportedPeriodicity(h.periodicity))
    case Some(cadence) =>
      match Normalized(h.checkoffs)
      case Failure(row) => Failure(UnparsableCheckoff(row))
      case Success(pd) =>
        var (value, status) := Reported(FinalState(cadence, pd, DefaultDeltaHours), maxMode);
        Success(Report(value, if value != 0 then status else NoData))
  }

  /** `calculation_of_streaks` for one habit. */
  method CalculationOfStreaks(h: Habit, maxMode: bool) returns (r: Result<Report, Error>)
    ensures r == StreakOf(h, maxMode)
    ensures CadenceOf(h.periodicity).None? ==> r == Failure(UnsupportedPeriodicity(h.periodicity))
    ensures CadenceOf(h.periodicity).Some? ==>
      (r.Success? <==> forall i :: 0 <= i < |h.checkoffs| ==> Parse(h.checkoffs[i]).Some?)
    ensures r.Success? ==> (r.value.status == NoData <==> r.value.value == 0)
    ensures CadenceOf(h.periodicity).Some? && h.checkoffs == [] ==> r == Success(Report(0, NoData))
  {
    if h.periodicity != "daily" && h.periodicity != "weekly" && h.periodicity != "monthly" {
      return Failure(UnsupportedPeriodicity(h.periodicity));
    }
    var converted := ConvertForCalculation(h.checkoffs);
    if converted.Failure? {
      return Failure(UnparsableCheckoff(converted.error));
    }
    var pd := converted.value;
    var value: nat, status: Status;
    if h.periodicity == "daily" {
      value, status := CalcStreakDaily(pd, maxMode, DefaultDeltaHours);
    } else if h.periodicity == "weekly" {
      value, status := CalcStreakWeekly(pd, maxMode, DefaultDeltaHours);
    } else {
      value, status := CalcStreakMonthly(pd, maxMode, DefaultDeltaHours);
    }
    r := Success(Report(value, if value != 0 then status else NoData));
    ReportedStatus(h, maxMode);
  }

  /** The reported status is -1 exactly when the streak is 0, and 1
      (completed), 2 (already logged) or 3 (broken) otherwise; a broken
      current streak is a streak of 1. */
  lemma ReportedStatus(h: Habit, maxMode: bool)
    requires StreakOf(h, maxMode).Success?
    ensures StreakOf(h, maxMode).value.status == NoData <==> StreakOf(h, maxMode).value.value == 0
    ensures StreakOf(h, maxMode).value.status in {Completed, AlreadyLogged, Broken, NoData}
    ensures !maxMode && StreakOf(h, maxMode).value.status == Broken ==> StreakOf(h, maxMode).value.value == 1
    ensures StreakOf(h, maxMode).value.status.Code() in {1, 2, 3, -1}
    ensures StreakOf(h, maxMode).value.status.Code() == -1 <==> StreakOf(h, maxMode).value.value == 0
  {
    var cadence := CadenceOf(h.periodicity).value;
    var pd := Normalized(h.checkoffs).value;
    WalkCoherent(RuleOf(cadence, DefaultDeltaHours), pd, |pd| - 1);
  }

  /** The current streak never exceeds the maximum streak. */
  lemma CurrentAtMostMaximum(h: Habit)
    requires StreakOf(h, false).Success?
    ensures StreakOf(h, true).Success?
    ensures StreakOf(h, false).value.value <= StreakOf(h, true).value.value
  {
    var cadence := CadenceOf(h.periodicity).value;
    var pd := Normalized(h.checkoffs).value;
    WalkCoherent(RuleOf(cadence, DefaultDeltaHours), pd, |pd| - 1);
  }

  /** The ids of the first `n` habits, in storage order. */
  function Ids(habits: seq<Habit>, n: nat): (ids: seq<int>)
    requires n <= |habits|
    ensures |ids| == n
  {
    if n == 0 then [] else Ids(habits, n - 1) + [habits[n - 1].id]
  }

  /** The maximum streaks of the first `n` habits in storage order, or the
      error of the first habit whose streak cannot be computed. */
  function MaxStreaks(habits: seq<Habit>, n: nat): (r: Result<seq<nat>, Error>)
    requires n <= |habits|
    ensures r.Success? ==> |r.value| == n
  {
    if n == 0 then Success([])
    else
      match MaxStreaks(habits, n - 1)
      case Failure(e) => Failure(e)
      case Success(values) =>
        match StreakOf(habits[n - 1], true)
        case Failure(e) => Failure(e)
        case Success(report) => Success(values + [report.value])
  }

  /** The largest of `values`, or 0 when there is none. */
  function Largest(values: seq<nat>): (m: nat)
    ensures forall i :: 0 <= i < |values| ==> values[i] <= m
    ensures m == 0 || exists i :: 0 <= i < |values| && values[i] == m
  {
    if values == [] then 0
    else
      var m := Largest(values[..|values| - 1]);
      if values[|values| - 1] > m then values[|values| - 1] else m
  }

  /** The ids whose value is `m`, in their order in `ids`. */
  function TiedIds(ids: seq<int>, values: seq<nat>, m: nat): (r: seq<int>)
    requires |ids| == |values|
    ensures |r| <= |ids|
  {
    if ids == [] then []
    else
      var n := |ids| - 1;
      TiedIds(ids[..n], values[..n], m) + (if values[n] == m then [ids[n]] else [])
  }

  /** An id is reported exactly when one of its habits has value `m`. */
  lemma {:induction false} TiedIdsMembers(ids: seq<int>, values: seq<nat>, m: nat, x: int)
    requires |ids| == |values|
    ensures x in TiedIds(ids, values, m) <==> exists i :: 0 <= i < |ids| && ids[i] == x && values[i] == m
  {
    if ids != [] {
      var n := |ids| - 1;
      TiedIdsMembers(ids[..n], values[..n], m, x);
      assert forall i :: 0 <= i < n ==> ids[..n][i] == ids[i] && values[..n][i] == values[i];
    }
  }

  /** Nothing ties with a value above every value. */
  lemma {:induction false} NoneTiedAbove(ids: seq<int>, values: seq<nat>, m: nat)
    requires |ids| == |values|
    requires forall i :: 0 <= i < |values| ==> values[i] < m
    ensures TiedIds(ids, values, m) == []
  {
    if ids != [] {
      var n := |ids| - 1;
      NoneTiedAbove(ids[..n], values[..n], m);
    }
  }

  /** The first failure is the failure of every longer prefix. */
  lemma FailureSticks(habits: seq<Habit>, i: nat, j: nat)
    requires i < j <= |habits|
    requires MaxStreaks(habits, i).Success? && StreakOf(habits[i], true).Failure?
    ensures MaxStreaks(habits, j) == Failure(StreakOf(habits[i], true).error)
  {
    FailureStays(habits, i + 1, j);
  }

  /** A failed prefix stays failed with the same error for every longer
      prefix. */
  lemma {:induction false} FailureStays(habits: seq<Habit>, n: nat, j: nat)
    requires n <= j <= |habits| && MaxStreaks(habits, n).Failure?
    ensures MaxStreaks(habits, j) == MaxStreaks(habits, n)
  {
    if j > n {
      FailureStays(habits, n, j - 1);
      FailurePasses(habits, j - 1);
    }
  }

  /** A failed prefix stays failed with the same error one habit later. */
  lemma FailurePasses(habits: seq<Habit>, n: nat)
    requires n < |habits| && MaxStreaks(habits, n).Failure?
    ensures MaxStreaks(habits, n + 1) == MaxStreaks(habits, n)
  {
  }

  /** The largest value after appending `v`. */
  lemma LargestAppend(values: seq<nat>, v: nat)
    ensures Largest(values + [v]) == if v > Largest(values) then v else Largest(values)
  {
    assert (values + [v])[..|values|] == values;
  }

  /** The tied ids after appending one id and its value. */
  lemma TiedIdsAppend(ids: seq<int>, values: seq<nat>, id: int, v: nat, m: nat)
    requires |ids| == |values|
    ensures TiedIds(ids + [id], values + [v], m) == TiedIds(ids, values, m) + (if v == m then [id] else [])
  {
    assert (ids + [id])[..|ids|] == ids;
    assert (values + [v])[..|values|] == values;
  }

  /** One habit more: a larger value replaces the tied ids by its own id,
      an equal value appends it, a smaller one changes nothing. */
  lemma AggregateStep(ids: seq<int>, values: seq<nat>, id: int, v: nat)
    requires |ids| == |values|
    ensures var m := Largest(values);
      && Largest(values + [v]) == (if v > m then v else m)
      && TiedIds(ids + [id], values + [v], Largest(values + [v]))
         == (if v > m then [id] else if v == m then TiedIds(ids, values, m) + [id] else TiedIds(ids, values, m))
  {
    var m := Largest(values);
    LargestAppend(values, v);
    if v > m {
      NoneTiedAbove(ids, values, v);
      TiedIdsAppend(ids, values, id, v, v);
    } else {
      TiedIdsAppend(ids, values, id, v, m);
    }
  }

  /** One pass of the loop of `calculate_longest_streak_of_all`: a larger
      maximum streak clears the list of ids and starts it with `id`, an
      equal one appends `id`, a smaller one changes nothing. */
  method ConsiderHabit(countMax0: nat, habitMaxIds0: seq<int>, id: int, individual: nat)
    returns (countMax: nat, habitMaxIds: seq<int>)
    ensures countMax == if individual > countMax0 then individual else countMax0
    ensures habitMaxIds == if individual > countMax0 then [id]
                           else if individual == countMax0 then habitMaxIds0 + [id]
                           else habitMaxIds0
  {
    countMax, habitMaxIds := countMax0, habitMaxIds0;
    if individual > countMax {
      countMax := individual;
      habitMaxIds := [];
      habitMaxIds := habitMaxIds + [id];
    } else if individual == countMax {
      habitMaxIds := habitMaxIds + [id];
    }
  }

  /** `calculate_longest_streak_of_all`: the largest maximum streak over
      all habits in storage order, starting from 0, and the ids of the
      habits that reach it. */
  method CalculateLongestStreakOfAll(habits: seq<Habit>) returns (r: Result<(seq<int>, nat), Error>)
    ensures MaxStreaks(habits, |habits|).Failure? ==> r == Failure(MaxStreaks(habits, |habits|).error)
    ensures MaxStreaks(habits, |habits|).Success? ==>
      var values := MaxStreaks(habits, |habits|).value;
      r == Success((TiedIds(Ids(habits, |habits|), values, Largest(values)), Largest(values)))
  {
    var countMax: nat := 0;
    var habitMaxIds: seq<int> := [];
    ghost var values: seq<nat> := [];
    for i := 0 to |habits|
      invariant MaxStreaks(habits, i) == Success(values)
      invariant countMax == Largest(values)
      invariant habitMaxIds == TiedIds(Ids(habits, i), values, countMax)
    {
      var streak := CalculationOfStreaks(habits[i], true);
      if streak.Failure? {
        FailureSticks(habits, i, |habits|);
        return Failure(streak.error);
      }
      AggregateStep(Ids(habits, i), values, habits[i].id, streak.value.value);
      countMax, habitMaxIds := ConsiderHabit(countMax, habitMaxIds, habits[i].id, streak.value.value);
      values := values + [streak.value.value];
    }
    r := Success((habitMaxIds, countMax));
  }

  /** With no streak anywhere, the maximum is 0 and every habit ties. */
  lemma {:induction false} AllZeroTiesEveryId(ids: seq<int>, values: seq<nat>)
    requires |ids| == |values|
    requires forall i :: 0 <= i < |values| ==> values[i] == 0
    ensures Largest(values) == 0
    ensures TiedIds(ids, values, 0) == ids
  {
    if ids != [] {
      var n := |ids| - 1;
      AllZeroTiesEveryId(ids[..n], values[..n]);
      assert ids == ids[..n] + [ids[n]];
    }
  }

  /** Distinct ids are reported at most once each. */
  lemma {:induction false} TiedIdsDistinct(ids: seq<int>, values: seq<nat>, m: nat)
    requires |ids| == |values|
    requires forall i, j :: 0 <= i < j < |ids| ==> ids[i] != ids[j]
    ensures var r := TiedIds(ids, values, m);
      forall i, j :: 0 <= i < j < |r| ==> r[i] != r[j]
  {
    if ids != [] {
      var n := |ids| - 1;
      TiedIdsDistinct(ids[..n], values[..n], m);
      TiedIdsMembers(ids[..n], values[..n], m, ids[n]);
      var before := TiedIds(ids[..n], values[..n], m);
      forall i | 0 <= i < n
        ensures ids[..n][i] != ids[n]
      {
        assert ids[..n][i] == ids[i];
      }
      assert ids[n] !in before;
      var r := TiedIds(ids, values, m);
      assert r == before + (if values[n] == m then [ids[n]] else []);
      forall i, j | 0 <= i < j < |r|
        ensures r[i] != r[j]
      {
        if j >= |before| {
          assert r[j] == ids[n] && r[i] == before[i] && before[i] in before;
        } else {
          assert r[i] == before[i] && r[j] == before[j];
        }
      }
    }
  }

  /** A habit whose value is larger than every other habit's is reported
      alone, with its value. */
  lemma {:induction false} StrictLargestAlone(ids: seq<int>, values: seq<nat>, k: nat)
    requires |ids| == |values| && k < |values|
    requires forall i :: 0 <= i < |values| && i != k ==> values[i] < values[k]
    ensures Largest(values) == values[k]
    ensures TiedIds(ids, values, values[k]) == [ids[k]]
  {
    var n := |ids| - 1;
    assert forall i :: 0 <= i < n ==> values[..n][i] == values[i];
    if n == k {
      NoneTiedAbove(ids[..n], values[..n], values[k]);
    } else {
      StrictLargestAlone(ids[..n], values[..n], k);
      assert values[..n][k] == values[k] && ids[..n][k] == ids[k];
    }
  }

  /** The maximum streaks of the seeded habits 1 to 5 are 26, 9, 7, 5 and
      4: habit 1 alone holds the longest streak, 26. */
  lemma SeededLongest()
    ensures Largest([26, 9, 7, 5, 4]) == 26
    ensures TiedIds([1, 2, 3, 4, 5], [26, 9, 7, 5, 4], 26) == [1]
  {
    StrictLargestAlone([1, 2, 3, 4, 5], [26, 9, 7, 5, 4], 0);
  }
}
