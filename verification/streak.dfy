/** The streak engine of `application/analytics.py`: one walker per cadence
    folds a boundary rule over the normalized list of instants, keeping an
    anchor (the last instant that counted), the current count, the running
    maximum and the status of the latest checkoff.

    The walkers are methods with the source's loop and branches. They are
    specified by `Walk`, which splits every step into a classification of
    the candidate against the anchor (`Classify`, passed to the generic
    `WalkWith` as a `Rule`) and the effect of that classification on the
    state (`Apply`); the facts in `StreakFacts` are about `WalkWith` and `Walk`. */
module Streak {
  import opened Calendar

  /** `delta_hour_daily`, `delta_hour_weekly` and `delta_hour_monthly`. */
  const DefaultDeltaHours := 4

  /** The daily walker's "already logged" guard, fixed at 4 hours whatever
      `delta_hours` is. */
  const AlreadyLoggedHours := 4

  /** The status of the latest checkoff. `Unset` is the walk's initial 0;
      `NoData` is the -1 reported for a habit whose streak is 0. */
  datatype Status = Unset | Completed | AlreadyLogged | Broken | NoData
  {
    /** The integer the source reports for this status. */
    function Code(): int {
      match this
      case Unset => 0
      case Completed => 1
      case AlreadyLogged => 2
      case Broken => 3
      case NoData => -1
    }
  }

  datatype Cadence = Daily | Weekly | Monthly

  /** The effect a checkoff has on the walk, as decided against the anchor. */
  datatype Transition =
    | InTime     // count + 1, status Completed, the anchor moves to the checkoff
    | Logged     // status AlreadyLogged; count and anchor stay
    | Reset      // count 1, status Broken (Completed while the anchor is the sentinel), the anchor moves
    | Restart    // count 1, status Completed, the anchor moves
    | Unchanged  // nothing changes

  /** `starting_date`, `count`, `count_max` and `status` of a walker. */
  datatype WalkState = WalkState(anchor: ValidDateTime, count: nat, countMax: nat, status: Status)

  /** `candidate - anchor` in seconds. */
  function Elapsed(anchor: ValidDateTime, candidate: ValidDateTime): int {
    candidate.Seconds() - anchor.Seconds()
  }

  /** Daily rule: the next calendar day with at least `deltaHours` elapsed
      counts; less than 4 hours or the same day is already logged; anything
      else breaks the streak. */
  function ClassifyDaily(anchor: ValidDateTime, candidate: ValidDateTime, deltaHours: int): Transition {
    var days := candidate.Ordinal() - anchor.Ordinal();
    var elapsed := Elapsed(anchor, candidate);
    if days == 1 && elapsed >= deltaHours * 3600 then InTime
    else if elapsed < AlreadyLoggedHours * 3600 || days == 0 then Logged
    else Reset
  }

  /** ISO week number of the date seven days after `anchor`
      (`(starting_date + timedelta(days=7)).isocalendar().week`). */
  function WeekNumberAWeekLater(anchor: ValidDateTime): int
    requires anchor.year < MaxYear
  {
    IsoCalendar(AddWeek(anchor)).week
  }

  /** Weekly rule on ISO week numbers, compared within the same calendar
      year or across one calendar year boundary. */
  function ClassifyWeekly(anchor: ValidDateTime, candidate: ValidDateTime, deltaHours: int): Transition {
    var anchorWeek, candidateWeek := IsoCalendar(anchor).week, IsoCalendar(candidate).week;
    var longEnough := Elapsed(anchor, candidate) >= deltaHours * 3600;
    if anchor.year == candidate.year then
      if anchorWeek == candidateWeek then Logged
      else if anchorWeek + 1 == candidateWeek && longEnough then InTime
      else if anchorWeek + 1 < candidateWeek then Reset
      else Unchanged
    else if anchor.year + 1 == candidate.year then
      if anchorWeek == candidateWeek then Logged
      else if candidateWeek == 1 && longEnough && WeekNumberAWeekLater(anchor) == candidateWeek then InTime
      else Reset
    else Reset
  }

  /** Monthly rule on calendar months; a January of the following year
      always counts. */
  function ClassifyMonthly(anchor: ValidDateTime, candidate: ValidDateTime, deltaHours: int): Transition {
    var longEnough := Elapsed(anchor, candidate) >= deltaHours * 3600;
    if anchor.year == candidate.year then
      if candidate.month == anchor.month + 1 && longEnough then InTime
      else if candidate.month == anchor.month then Logged
      else if candidate.month > anchor.month + 1 then Reset
      else Unchanged
    else if anchor.year + 1 == candidate.year && candidate.month == 1 then InTime
    else if anchor.year + 1 == candidate.year && candidate.month != 1 then Reset
    else Restart
  }

  function Classify(cadence: Cadence, anchor: ValidDateTime, candidate: ValidDateTime, deltaHours: int): Transition {
    match cadence
    case Daily => ClassifyDaily(anchor, candidate, deltaHours)
    case Weekly => ClassifyWeekly(anchor, candidate, deltaHours)
    case Monthly => ClassifyMonthly(anchor, candidate, deltaHours)
  }

  /** One step of a walker: the transition's effect, then the running
      maximum update `if count >= count_max: count_max = count`. */
  function Apply(s: WalkState, t: Transition, candidate: ValidDateTime, sentinel: ValidDateTime): WalkState {
    var next := match t
      case InTime => s.(anchor := candidate, count := s.count + 1, status := Completed)
      case Logged => s.(status := AlreadyLogged)
      case Reset => s.(anchor := candidate, count := 1,
                       status := if s.anchor != sentinel then Broken else Completed)
      case Restart => s.(anchor := candidate, count := 1, status := Completed)
      case Unchanged => s;
    if next.count >= next.countMax then next.(countMax := next.count) else next
  }

  /** A boundary rule as a function value: how a candidate compares with
      the anchor. */
  type Rule = (ValidDateTime, ValidDateTime) -> Transition

  /** The boundary rule of a cadence. */
  function RuleOf(cadence: Cadence, deltaHours: int): Rule {
    (anchor: ValidDateTime, candidate: ValidDateTime) => Classify(cadence, anchor, candidate, deltaHours)
  }

  /** The state after the checkoffs `pd[1..k + 1]` under boundary rule
      `rule`, starting from the sentinel `pd[0]` with count, maximum and
      status 0. */
  function WalkWith(rule: Rule, pd: seq<ValidDateTime>, k: nat): WalkState
    requires k < |pd|
    decreases k, 1
  {
    if k == 0 then WalkState(pd[0], 0, 0, Unset) else StepAt(rule, pd, k)
  }

  /** Step k of the walk: checkoff `pd[k]` classified against the anchor
      of the state before it, and applied. */
  function StepAt(rule: Rule, pd: seq<ValidDateTime>, k: nat): WalkState
    requires 1 <= k < |pd|
    decreases k, 0
  {
    var before := WalkWith(rule, pd, k - 1);
    Apply(before, rule(before.anchor, pd[k]), pd[k], pd[0])
  }

  /** The walker's state after the checkoffs `pd[1..k + 1]`. */
  function Walk(cadence: Cadence, pd: seq<ValidDateTime>, deltaHours: int, k: nat): WalkState
    requires k < |pd|
  {
    WalkWith(RuleOf(cadence, deltaHours), pd, k)
  }

  /** One more checkoff is one more `Apply` step. */
  lemma WalkStep(cadence: Cadence, pd: seq<ValidDateTime>, deltaHours: int, k: nat)
    requires k + 1 < |pd|
    ensures Walk(cadence, pd, deltaHours, k + 1)
         == Apply(Walk(cadence, pd, deltaHours, k),
                  Classify(cadence, Walk(cadence, pd, deltaHours, k).anchor, pd[k + 1], deltaHours),
                  pd[k + 1], pd[0])
  {
    assert Walk(cadence, pd, deltaHours, k + 1) == StepAt(RuleOf(cadence, deltaHours), pd, k + 1);
  }

  /** The state after the whole list. */
  function FinalState(cadence: Cadence, pd: seq<ValidDateTime>, deltaHours: int): WalkState
    requires |pd| >= 1
  {
    Walk(cadence, pd, deltaHours, |pd| - 1)
  }

  /** What a walker returns: the maximum or the current count, and the status. */
  function Reported(s: WalkState, maxMode: bool): (nat, Status) {
    (if maxMode then s.countMax else s.count, s.status)
  }

  /** One pass of the loop of `calc_streak_daily` over the checkoff `candidate`. */
  method StepDaily(anchor0: ValidDateTime, count0: nat, countMax0: nat, status0: Status,
                   candidate: ValidDateTime, sentinel: ValidDateTime, deltaHours: int)
    returns (anchor: ValidDateTime, count: nat, countMax: nat, status: Status)
    ensures WalkState(anchor, count, countMax, status)
         == Apply(WalkState(anchor0, count0, countMax0, status0),
                  ClassifyDaily(anchor0, candidate, deltaHours), candidate, sentinel)
  {
    anchor, count, countMax, status := anchor0, count0, countMax0, status0;
    if candidate.Ordinal() - anchor.Ordinal() == 1
       && candidate.Seconds() - anchor.Seconds() >= deltaHours * 3600
    {
      count := count + 1;
      status := Completed;
      anchor := candidate;
    } else if candidate.Seconds() - anchor.Seconds() < AlreadyLoggedHours * 3600
              || candidate.Ordinal() - anchor.Ordinal() == 0
    {
      status := AlreadyLogged;
    } else {
      count := 1;
      status := if anchor != sentinel then Broken else Completed;
      anchor := candidate;
    }
    if count >= countMax {
      countMax := count;
    }
  }

  /** One pass of the loop of `calc_streak_weekly`. */
  method StepWeekly(anchor0: ValidDateTime, count0: nat, countMax0: nat, status0: Status,
                    candidate: ValidDateTime, sentinel: ValidDateTime, deltaHours: int)
    returns (anchor: ValidDateTime, count: nat, countMax: nat, status: Status)
    ensures WalkState(anchor, count, countMax, status)
         == Apply(WalkState(anchor0, count0, countMax0, status0),
                  ClassifyWeekly(anchor0, candidate, deltaHours), candidate, sentinel)
  {
    anchor, count, countMax, status := anchor0, count0, countMax0, status0;
    var anchorWeek, candidateWeek := IsoCalendar(anchor).week, IsoCalendar(candidate).week;
    var longEnough := candidate.Seconds() - anchor.Seconds() >= deltaHours * 3600;
    if anchor.year == candidate.year {
      if anchorWeek == candidateWeek {
        status := AlreadyLogged;
      } else if anchorWeek + 1 == candidateWeek && longEnough {
        count := count + 1;
        status := Completed;
        anchor := candidate;
      } else if anchorWeek + 1 < candidateWeek {
        count := 1;
        status := if anchor != sentinel then Broken else Completed;
        anchor := candidate;
      }
    } else if anchor.year + 1 == candidate.year {
      if anchorWeek == candidateWeek {
        status := AlreadyLogged;
      } else if candidateWeek == 1 && longEnough && WeekNumberAWeekLater(anchor) == candidateWeek {
        count := count + 1;
        status := Completed;
        anchor := candidate;
      } else {
        count := 1;
        status := if anchor != sentinel then Broken else Completed;
        anchor := candidate;
      }
    } else {
      count := 1;
      status := if anchor != sentinel then Broken else Completed;
      anchor := candidate;
    }
    if count >= countMax {
      countMax := count;
    }
  }

  /** One pass of the loop of `calc_streak_monthly`. */
  method StepMonthly(anchor0: ValidDateTime, count0: nat, countMax0: nat, status0: Status,
                     candidate: ValidDateTime, sentinel: ValidDateTime, deltaHours: int)
    returns (anchor: ValidDateTime, count: nat, countMax: nat, status: Status)
    ensures WalkState(anchor, count, countMax, status)
         == Apply(WalkState(anchor0, count0, countMax0, status0),
                  ClassifyMonthly(anchor0, candidate, deltaHours), candidate, sentinel)
  {
    anchor, count, countMax, status := anchor0, count0, countMax0, status0;
    if anchor.year == candidate.year {
      if candidate.month == anchor.month + 1
         && candidate.Seconds() - anchor.Seconds() >= deltaHours * 3600
      {
        count := count + 1;
        status := Completed;
        anchor := candidate;
      } else if candidate.month == anchor.month {
        status := AlreadyLogged;
      } else if candidate.month > anchor.month + 1 {
        status := if anchor != sentinel then Broken else Completed;
        count := 1;
        anchor := candidate;
      }
    } else if anchor.year + 1 == candidate.year && candidate.month == 1 {
      count := count + 1;
      status := Completed;
      anchor := candidate;
    } else if anchor.year + 1 == candidate.year && candidate.month != 1 {
      count := 1;
      status := if anchor != sentinel then Broken else Completed;
      anchor := candidate;
    } else {
      count := 1;
      status := Completed;
      anchor := candidate;
    }
    if count >= countMax {
      countMax := count;
    }
  }

  /** `calc_streak_daily` without its database handle: `pd[0]` is the
      sentinel and the loop runs once per checkoff after it. */
  method CalcStreakDaily(pd: seq<ValidDateTime>, maxMode: bool, deltaHours: int)
    returns (value: nat, status: Status)
    requires |pd| >= 1
    ensures (value, status) == Reported(FinalState(Daily, pd, deltaHours), maxMode)
  {
    var count, countMax: nat := 0, 0;
    status := Unset;
    var anchor := pd[0];
    for idx := 0 to |pd| - 1
      invariant WalkState(anchor, count, countMax, status) == Walk(Daily, pd, deltaHours, idx)
    {
      WalkStep(Daily, pd, deltaHours, idx);
      anchor, count, countMax, status := StepDaily(anchor, count, countMax, status, pd[idx + 1], pd[0], deltaHours);
    }
    value := if maxMode then countMax else count;
  }

  /** `calc_streak_weekly` without its database handle. */
  method CalcStreakWeekly(pd: seq<ValidDateTime>, maxMode: bool, deltaHours: int)
    returns (value: nat, status: Status)
    requires |pd| >= 1
    ensures (value, status) == Reported(FinalState(Weekly, pd, deltaHours), maxMode)
  {
    var count, countMax: nat := 0, 0;
    status := Unset;
    var anchor := pd[0];
    for idx := 0 to |pd| - 1
      invariant WalkState(anchor, count, countMax, status) == Walk(Weekly, pd, deltaHours, idx)
    {
      WalkStep(Weekly, pd, deltaHours, idx);
      anchor, count, countMax, status := StepWeekly(anchor, count, countMax, status, pd[idx + 1], pd[0], deltaHours);
    }
    value := if maxMode then countMax else count;
  }

  /** `calc_streak_monthly` without its database handle. */
  method CalcStreakMonthly(pd: seq<ValidDateTime>, maxMode: bool, deltaHours: int)
    returns (value: nat, status: Status)
    requires |pd| >= 1
    ensures (value, status) == Reported(FinalState(Monthly, pd, deltaHours), maxMode)
  {
    var count, countMax: nat := 0, 0;
    status := Unset;
    var anchor := pd[0];
    for idx := 0 to |pd| - 1
      invariant WalkState(anchor, count, countMax, status) == Walk(Monthly, pd, deltaHours, idx)
    {
      WalkStep(Monthly, pd, deltaHours, idx);
      anchor, count, countMax, status := StepMonthly(anchor, count, countMax, status, pd[idx + 1], pd[0], deltaHours);
    }
    value := if maxMode then countMax else count;
  }
}
