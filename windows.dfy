/** The time windows of the three total endpoints, on timestamps in milliseconds.
    The rolling windows run from a fixed span before `now` up to `now`, both ends
    included; the daily window runs from midnight today up to, but not including,
    midnight tomorrow. */
module Windows {
  const FiveMinutesMs: int := 5 * 60 * 1000
  const OneHourMs: int := 60 * 60 * 1000
  const DayMs: int := 24 * 60 * 60 * 1000

  /** A time range that always includes its start; `Closed` includes its end, `HalfOpen` does not. */
  datatype Window = Closed(start: int, end: int) | HalfOpen(start: int, end: int)

  /** Membership of a timestamp, as the store's `c.time >= @start AND c.time <= @end`
      (or `< @end`) comparisons decide it. */
  predicate Contains(w: Window, t: int)
  {
    match w
    case Closed(s, e) => s <= t <= e
    case HalfOpen(s, e) => s <= t < e
  }

  /** The five-minute endpoint's window: `fiveMinutesAgo` is `now - 5 * 60 * 1000`. */
  function FiveMinuteWindow(now: int): (w: Window)
    ensures w.start == now - 300000 && w.end == now && w.start <= w.end
    ensures forall t :: Contains(w, t) <==> now - 300000 <= t <= now
  {
    Closed(now - FiveMinutesMs, now)
  }

  /** The hourly endpoint's window: `oneHourAgo` is `now - 60 * 60 * 1000`. */
  function HourlyWindow(now: int): (w: Window)
    ensures w.start == now - 3600000 && w.end == now && w.start <= w.end
    ensures forall t :: Contains(w, t) <==> now - 3600000 <= t <= now
  {
    Closed(now - OneHourMs, now)
  }

  /** The daily endpoint's window, from the instant `today` (midnight of the current
      day) to one day later, the later end excluded. */
  function DailyWindow(today: int): (w: Window)
    ensures w.start == today && w.end == today + 86400000
    ensures forall t :: Contains(w, t) <==> today <= t < today + 86400000
    ensures Contains(w, today) && !Contains(w, today + 86400000)
  {
    HalfOpen(today, today + DayMs)
  }

  /** A JavaScript `Date`, reduced to the instant it holds; the setters change it in place. */
  class JsDate {
    var time: int

    /** `new Date(t)`. */
    constructor (t: int)
      ensures time == t
    {
      time := t;
    }

    /** `setHours(0, 0, 0, 0)`: the caller supplies the instant of midnight of the
        local day that holds `time`, since time zones are outside this model. */
    method SetToMidnight(midnight: int)
      requires midnight <= time < midnight + DayMs
      modifies this
      ensures time == midnight
      ensures time <= old(time) < time + DayMs
    {
      time := midnight;
    }

    /** `setDate(getDate() + days)`, with every day `DayMs` long. */
    method AddDays(days: int)
      modifies this
      ensures time == old(time) + days * DayMs
    {
      time := time + days * DayMs;
    }
  }

  /** The daily endpoint's bounds as server.js builds them: take now, move it back to
      the midnight that starts its day, copy it and move the copy forward by one day.
      The resulting window holds the current instant. */
  method ResolveDailyWindow(now: int, midnight: int) returns (w: Window)
    requires midnight <= now < midnight + DayMs
    ensures w == DailyWindow(midnight)
    ensures Contains(w, now)
  {
    var today := new JsDate(now);
    today.SetToMidnight(midnight);
    var tomorrow := new JsDate(today.time);
    tomorrow.AddDays(1);
    w := HalfOpen(today.time, tomorrow.time);
  }

  /** Both rolling windows contain `now` itself and the instant at their start, and
      neither contains an instant 1 ms outside those ends. */
  lemma RollingWindowsIncludeBothEnds(now: int)
    ensures Contains(FiveMinuteWindow(now), now) && Contains(FiveMinuteWindow(now), now - 300000)
    ensures Contains(HourlyWindow(now), now) && Contains(HourlyWindow(now), now - 3600000)
    ensures !Contains(FiveMinuteWindow(now), now + 1) && !Contains(FiveMinuteWindow(now), now - 300001)
    ensures !Contains(HourlyWindow(now), now + 1) && !Contains(HourlyWindow(now), now - 3600001)
  {
  }

  /** Every instant of the last five minutes is in the last hour. */
  lemma FiveMinutesWithinHour(now: int, t: int)
    requires Contains(FiveMinuteWindow(now), t)
    ensures Contains(HourlyWindow(now), t)
  {
  }

  /** Consecutive daily windows do not overlap and leave no instant out. */
  lemma DailyWindowsPartition(midnight: int, t: int)
    ensures Contains(DailyWindow(midnight), t) ==> !Contains(DailyWindow(midnight + DayMs), t)
    ensures midnight <= t < midnight + 2 * DayMs ==>
              Contains(DailyWindow(midnight), t) || Contains(DailyWindow(midnight + DayMs), t)
  {
  }
}
