/**
  `System.DateTime` in UTC as its tick count (100 ns units since
  0001-01-01), with the operations the scripts use: `Date`, `AddDays`,
  `AddSeconds` and subtraction. Operations whose result leaves the
  representable range raise ArgumentOutOfRangeException, modelled as
  `Thrown`.
 */
module Clock {
  import opened Wrappers

  const TICKS_PER_SECOND: int := 10_000_000
  const TICKS_PER_MINUTE: int := 60 * TICKS_PER_SECOND
  const TICKS_PER_HOUR: int := 60 * TICKS_PER_MINUTE
  const TICKS_PER_DAY: int := 24 * TICKS_PER_HOUR
  const SECONDS_PER_DAY: int := 86400

  /** `DateTime.MaxValue`, the last tick of 9999-12-31. */
  const MAX_TICKS: int := 3_155_378_975_999_999_999
  /** 1970-01-01T00:00:00Z. */
  const UNIX_EPOCH_TICKS: int := 621_355_968_000_000_000
  /** The epoch falls on a day boundary: day 719162 of the calendar. */
  const UNIX_EPOCH_DAY: int := 719_162

  predicate IsDateTime(t: int) { 0 <= t <= MAX_TICKS }

  /** `t.Date`: midnight at the start of t's day. */
  function Date(t: int): (d: int)
    requires IsDateTime(t)
    ensures IsDateTime(d) && d <= t < d + TICKS_PER_DAY && d % TICKS_PER_DAY == 0
  {
    t - t % TICKS_PER_DAY
  }

  /** `t.AddDays(1)`. */
  function AddOneDay(t: int): (r: Result<int>)
    requires IsDateTime(t)
    ensures r.Ok? <==> t + TICKS_PER_DAY <= MAX_TICKS
    ensures r.Ok? ==> r.value == t + TICKS_PER_DAY
  {
    if t + TICKS_PER_DAY <= MAX_TICKS then Ok(t + TICKS_PER_DAY) else Thrown
  }

  /** `t.AddSeconds(s)` for a whole number of seconds. */
  function AddSeconds(t: int, s: int): (r: Result<int>)
    requires IsDateTime(t)
    ensures r.Ok? <==> IsDateTime(t + s * TICKS_PER_SECOND)
    ensures r.Ok? ==> r.value == t + s * TICKS_PER_SECOND
  {
    var u := t + s * TICKS_PER_SECOND;
    if IsDateTime(u) then Ok(u) else Thrown
  }

  /** Midnight is reached from every tick of a day by the same `Date`. */
  lemma SameDate(t: int, u: int)
    requires IsDateTime(t) && IsDateTime(u)
    ensures Date(t) == Date(u) <==> t / TICKS_PER_DAY == u / TICKS_PER_DAY
  {
    assert Date(t) == (t / TICKS_PER_DAY) * TICKS_PER_DAY;
    assert Date(u) == (u / TICKS_PER_DAY) * TICKS_PER_DAY;
  }
}
