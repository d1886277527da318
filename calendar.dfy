/** The `datetime`/pandas time arithmetic the pipelines use, on integer epoch
    milliseconds (durations in integer microseconds, as `timedelta` keeps them). */
module Calendar {
  import opened PyBase
  import opened PyDict

  const MsPerHour: int := 3_600_000
  const MsPerDay: int := 86_400_000

  /** `isoweekday()`: Monday is 1, Sunday is 7. */
  type Weekday = d: int | 1 <= d <= 7 witness 1

  /** The ISO weekday of an instant, counted in UTC from the epoch
      (1 January 1970 was a Thursday). */
  function IsoWeekday(ts: int): (d: Weekday)
    ensures 0 <= ts < MsPerDay ==> d == 4
    ensures -MsPerDay <= ts < 0 ==> d == 3
  {
    (ts / MsPerDay + 3) % 7 + 1
  }

  /** Saturday and Sunday. */
  predicate IsWeekendDay(d: Weekday)
  {
    d == 6 || d == 7
  }

  /** A day later is the next weekday, Sunday wrapping round to Monday. */
  lemma NextDay(ts: int)
    ensures IsoWeekday(ts + MsPerDay) == IsoWeekday(ts) % 7 + 1
  {
    assert (ts + MsPerDay) / MsPerDay == ts / MsPerDay + 1;
  }

  /** `pd.date_range(start, end, freq="h")`: every hour from `start` while not after `end`. */
  function HourlyRange(start: int, end: int): (r: seq<int>)
    ensures |r| == if end < start then 0 else (end - start) / MsPerHour + 1
    ensures forall i :: 0 <= i < |r| ==> r[i] == start + i * MsPerHour
    decreases end - start
  {
    if end < start then [] else [start] + HourlyRange(start + MsPerHour, end)
  }

  /** The range starts at `start`, rises by one hour a step, stays at or before `end`,
      and the next step would pass `end`. */
  lemma {:induction false} HourlyRangeShape(start: int, end: int)
    ensures var r := HourlyRange(start, end);
      && (|r| > 0 <==> start <= end)
      && (|r| > 0 ==> r[0] == start && end < r[|r| - 1] + MsPerHour)
      && (forall i :: 0 <= i < |r| ==> r[i] <= end)
      && (forall i :: 0 < i < |r| ==> r[i] == r[i - 1] + MsPerHour)
  {
    var r := HourlyRange(start, end);
    if start <= end {
      var n := (end - start) / MsPerHour;
      assert r[|r| - 1] == start + n * MsPerHour;
      assert n * MsPerHour <= end - start < (n + 1) * MsPerHour;
      forall i | 0 <= i < |r| ensures r[i] <= end {
        assert i * MsPerHour <= n * MsPerHour;
      }
    }
  }

  /** A time lies on the range exactly when it is a whole number of hours after `start`
      and not after `end`; it then stands at that number of hours. */
  lemma HourlyRangeMember(start: int, end: int, t: int)
    requires start <= t <= end && (t - start) % MsPerHour == 0
    ensures var r := HourlyRange(start, end);
      var k := (t - start) / MsPerHour; k < |r| && r[k] == t
  {
    var k := (t - start) / MsPerHour;
    assert t - start == k * MsPerHour;
    assert k <= (end - start) / MsPerHour;
  }

  /** Microseconds per unit of each keyword `timedelta` accepts. */
  function UnitUs(name: string): Option<int>
  {
    match name
    case "weeks" => Some(604_800_000_000)
    case "days" => Some(86_400_000_000)
    case "hours" => Some(3_600_000_000)
    case "minutes" => Some(60_000_000)
    case "seconds" => Some(1_000_000)
    case "milliseconds" => Some(1_000)
    case "microseconds" => Some(1)
    case _ => None
  }

  /** `timedelta(**kwargs)` in microseconds; an unknown keyword raises TypeError. */
  function TimedeltaUs(kwargs: Entries<int>): (r: Result<int, Exception>)
    ensures r.Ok? <==> forall i :: 0 <= i < |kwargs| ==> UnitUs(kwargs[i].0).Some?
    ensures r.Err? ==> r.error == TypeError
  {
    if |kwargs| == 0 then Ok(0)
    else match UnitUs(kwargs[0].0)
      case None => Err(TypeError)
      case Some(u) =>
        match TimedeltaUs(kwargs[1..])
        case Err(e) => Err(e)
        case Ok(rest) => Ok(kwargs[0].1 * u + rest)
  }

  /** A timedelta added to a millisecond instant, truncated to the last whole millisecond
      at or before it: a millisecond time `t` is at most `ts + delta` exactly when it is at
      most this value. */
  function AddUs(ts: int, deltaUs: int): (r: int)
    ensures forall t :: t * 1000 <= ts * 1000 + deltaUs <==> t <= r
  {
    ts + deltaUs / 1000
  }
}
