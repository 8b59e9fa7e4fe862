/** The timestamp normalizer: a habit's stored checkoff strings become the
    list of instants the streak walkers fold over, led by a sentinel instant
    far in the past. */
module Normalizer {
  import opened Wrappers
  import opened Calendar
  import opened Timestamp

  /** The instant at index 0 of every normalized list:
      `datetime.fromtimestamp(639093601)`, 1990-04-03 00:00:01 in the zone
      the unit tests use. */
  const Sentinel: ValidDateTime := DateTime(1990, 4, 3, 0, 0, 1)

  /** Day 719163 is 1970-01-01, the Unix epoch. */
  lemma EpochOrdinal(epoch: ValidDateTime)
    requires epoch == DateTime(1970, 1, 1, 0, 0, 0)
    ensures epoch.Ordinal() == 719163
  {
    DaysBeforeYearClosedForm(1970);
  }

  /** Day 726560 is 1990-04-03. */
  lemma SentinelOrdinal(sentinel: ValidDateTime)
    requires sentinel == Sentinel
    ensures sentinel.Ordinal() == 726560
  {
    DaysBeforeYearClosedForm(1990);
  }

  /** The sentinel is the instant 639093601 seconds after the Unix epoch,
      read in local time two hours ahead of UTC (central European summer
      time, in force on that day). */
  lemma SentinelIsTimestamp(epoch: ValidDateTime, sentinel: ValidDateTime)
    requires epoch == DateTime(1970, 1, 1, 0, 0, 0) && sentinel == Sentinel
    ensures sentinel.Seconds() - epoch.Seconds() == 639093601 + 2 * 3600
  {
    EpochOrdinal(epoch);
    SentinelOrdinal(sentinel);
  }

  /** Parses every row in order; fails with the first row that does not parse. */
  function ParseAll(rows: seq<string>): (r: Result<seq<ValidDateTime>, string>)
    ensures r.Success? ==> |r.value| == |rows|
  {
    if rows == [] then Success([])
    else match Parse(rows[0])
      case None => Failure(rows[0])
      case Some(d) =>
        match ParseAll(rows[1..])
        case Failure(e) => Failure(e)
        case Success(ds) => Success([d] + ds)
  }

  /** `ParseAll` succeeds exactly when every row parses, and then holds
      each row's date-time in order. */
  lemma {:induction false} ParseAllSuccess(rows: seq<string>)
    ensures ParseAll(rows).Success? <==> forall i :: 0 <= i < |rows| ==> Parse(rows[i]).Some?
    ensures ParseAll(rows).Success? ==>
      forall i :: 0 <= i < |rows| ==> Parse(rows[i]) == Some(ParseAll(rows).value[i])
  {
    if rows != [] {
      ParseAllSuccess(rows[1..]);
      assert forall i :: 1 <= i < |rows| ==> rows[1..][i - 1] == rows[i];
    }
  }

  /** A failing `ParseAll` names the first row that does not parse. */
  lemma {:induction false} ParseAllFirstFailure(rows: seq<string>)
    requires ParseAll(rows).Failure?
    ensures exists i :: (0 <= i < |rows| && ParseAll(rows).error == rows[i] && Parse(rows[i]).None?
                         && forall j :: 0 <= j < i ==> Parse(rows[j]).Some?)
  {
    if Parse(rows[0]).None? {
      assert ParseAll(rows).error == rows[0];
    } else {
      ParseAllFirstFailure(rows[1..]);
      var i :| 0 <= i < |rows[1..]| && ParseAll(rows[1..]).error == rows[1..][i] && Parse(rows[1..][i]).None?
        && forall j :: 0 <= j < i ==> Parse(rows[1..][j]).Some?;
      assert ParseAll(rows).error == rows[i + 1] && Parse(rows[i + 1]).None?;
      forall j | 0 <= j < i + 1
        ensures Parse(rows[j]).Some?
      {
        if j > 0 {
          assert rows[j] == rows[1..][j - 1];
        }
      }
    }
  }

  /** The list `convert_date_and_time_for_calculation` returns. */
  function Normalized(rows: seq<string>): (r: Result<seq<ValidDateTime>, string>)
    ensures r.Success? <==> ParseAll(rows).Success?
    ensures r.Success? ==> |r.value| == |rows| + 1 && r.value[0] == Sentinel
  {
    match ParseAll(rows)
    case Success(ds) => Success([Sentinel] + ds)
    case Failure(e) => Failure(e)
  }

  /** The log rows the application writes for checkoffs at `ds`. */
  function Stored(ds: seq<ValidDateTime>): seq<string> {
    seq(|ds|, i requires 0 <= i < |ds| => Format(ds[i]))
  }

  /** Rows in the stored format normalize to their instants behind the
      sentinel. */
  lemma NormalizeStored(ds: seq<ValidDateTime>)
    ensures Normalized(Stored(ds)) == Success([Sentinel] + ds)
  {
    var rows := Stored(ds);
    forall i | 0 <= i < |rows|
      ensures Parse(rows[i]) == Some(ds[i])
    {
      ParseFormat(ds[i]);
    }
    ParseAllSuccess(rows);
    assert ParseAll(rows).value == ds;
  }

  /** Converts the stored checkoffs of one habit, in storage order, to
      instants behind the sentinel; a row `strptime` rejects aborts the
      conversion with that row. */
  method ConvertForCalculation(rows: seq<string>) returns (r: Result<seq<ValidDateTime>, string>)
    ensures r == Normalized(rows)
    ensures r.Success? <==> forall i :: 0 <= i < |rows| ==> Parse(rows[i]).Some?
    ensures r.Success? ==> |r.value| == |rows| + 1 && r.value[0] == Sentinel
    ensures r.Success? ==> forall i :: 0 <= i < |rows| ==> Parse(rows[i]) == Some(r.value[i + 1])
    ensures r.Failure? ==>
      exists i :: 0 <= i < |rows| && r.error == rows[i] && Parse(rows[i]).None?
        && forall j :: 0 <= j < i ==> Parse(rows[j]).Some?
  {
    var dates: seq<ValidDateTime> := [Sentinel];
    for i := 0 to |rows|
      invariant |dates| == i + 1 && dates[0] == Sentinel
      invariant forall j :: 0 <= j < i ==> Parse(rows[j]) == Some(dates[j + 1])
    {
      var parsed := Parse(rows[i]);
      if parsed.None? {
        ParseAllSuccess(rows);
        ParseAllFirstFailure(rows);
        return Failure(rows[i]);
      }
      dates := dates + [parsed.value];
    }
    ParseAllSuccess(rows);
    assert ParseAll(rows).Success?;
    assert dates[1..] == ParseAll(rows).value;
    assert dates == [Sentinel] + dates[1..];
    return Success(dates);
  }
}
