/** The three total endpoints of server.js as functions of the store's contents:
    the five-minute endpoint aggregates the selected readings itself; the hourly
    and daily endpoints leave the sum to the store, so only the samples their
    windows select, and the `resources[0] || 0` fallback, are modelled. */
module Endpoints {
  import opened Wrappers
  import opened Readings
  import opened Windows
  import opened Query
  import HeatTransfer

  /** `fiveMinutesTotal` for a device at instant `now`, in kW. */
  function FiveMinutesTotal(store: seq<Sample>, device: string, now: int): real
  {
    HeatTransfer.TotalKW(Project(Where(store, device, FiveMinuteWindow(now))))
  }

  /** The documents the hourly query sums over. */
  function HourlySelection(store: seq<Sample>, device: string, now: int): seq<Sample>
  {
    Where(store, device, HourlyWindow(now))
  }

  /** The documents the daily query sums over, for the day that starts at `midnight`. */
  function DailySelection(store: seq<Sample>, device: string, midnight: int): seq<Sample>
  {
    Where(store, device, DailyWindow(midnight))
  }

  /** No sample of the device in the last five minutes: the endpoint reports 0. */
  lemma FiveMinutesTotalWithoutData(store: seq<Sample>, device: string, now: int)
    requires forall k :: 0 <= k < |store| ==> !Matches(store[k], device, FiveMinuteWindow(now))
    ensures FiveMinutesTotal(store, device, now) == 0.0
  {
    WhereNone(store, device, FiveMinuteWindow(now));
    HeatTransfer.TotalEmpty();
  }

  /** The reported value does not depend on the order of the documents in the store. */
  lemma FiveMinutesTotalOrderIndependent(xs: seq<Sample>, ys: seq<Sample>, device: string, now: int)
    requires multiset(xs) == multiset(ys)
    ensures FiveMinutesTotal(xs, device, now) == FiveMinutesTotal(ys, device, now)
  {
    var w := FiveMinuteWindow(now);
    WherePermutation(xs, ys, device, w);
    ProjectPermutation(Where(xs, device, w), Where(ys, device, w));
    HeatTransfer.TotalPermutation(Project(Where(xs, device, w)), Project(Where(ys, device, w)));
  }

  /** The reported value of a store made of two parts is the sum of the values of the parts. */
  lemma FiveMinutesTotalSplit(xs: seq<Sample>, ys: seq<Sample>, device: string, now: int)
    ensures FiveMinutesTotal(xs + ys, device, now) == FiveMinutesTotal(xs, device, now) + FiveMinutesTotal(ys, device, now)
  {
    var w := FiveMinuteWindow(now);
    WhereConcat(xs, ys, device, w);
    ProjectConcat(Where(xs, device, w), Where(ys, device, w));
    HeatTransfer.TotalConcat(Project(Where(xs, device, w)), Project(Where(ys, device, w)));
  }

  /** One more stored sample adds its own kW value exactly when it belongs to the device
      and lies in the five-minute window, both ends included, and nothing otherwise. */
  lemma FiveMinutesTotalAddSample(store: seq<Sample>, s: Sample, device: string, now: int)
    ensures FiveMinutesTotal(store + [s], device, now) ==
            FiveMinutesTotal(store, device, now) +
            (if s.device == device && now - 300000 <= s.time <= now
             then HeatTransfer.HeatTransferW(s.reading) / 1000.0 else 0.0)
  {
    FiveMinutesTotalSplit(store, [s], device, now);
    var sel := Where([s], device, FiveMinuteWindow(now));
    assert [s][1..] == [];
    assert Project(sel) == if Matches(s, device, FiveMinuteWindow(now)) then [s.reading] else [];
    HeatTransfer.TotalIsSum(Project(sel));
    assert [s.reading][1..] == [];
  }

  /** The value reported in kW equals the sum of the per-sample kW values of the
      selected samples. */
  lemma FiveMinutesTotalIsSumOfKW(store: seq<Sample>, device: string, now: int)
    ensures FiveMinutesTotal(store, device, now) ==
            HeatTransfer.SumKW(Project(Where(store, device, FiveMinuteWindow(now))))
  {
    HeatTransfer.TotalKWIsSumOfKW(Project(Where(store, device, FiveMinuteWindow(now))));
  }

  /** Every document of the five-minute selection is also in the hourly selection,
      at least as often. */
  lemma FiveMinuteSelectionWithinHourly(store: seq<Sample>, device: string, now: int)
    ensures multiset(Where(store, device, FiveMinuteWindow(now))) <= multiset(HourlySelection(store, device, now))
  {
    forall s ensures multiset(Where(store, device, FiveMinuteWindow(now)))[s] <= multiset(HourlySelection(store, device, now))[s] {
      WhereCount(store, device, FiveMinuteWindow(now), s);
      WhereCount(store, device, HourlyWindow(now), s);
      if Matches(s, device, FiveMinuteWindow(now)) {
        FiveMinutesWithinHour(now, s.time);
      }
    }
  }

  /** A document stamped exactly at midnight tomorrow is left to the next day's query,
      one stamped exactly at midnight today is counted today. */
  lemma DailySelectionBoundaries(store: seq<Sample>, device: string, midnight: int, s: Sample)
    requires s.device == device
    ensures s.time == midnight + DayMs ==> multiset(DailySelection(store, device, midnight))[s] == 0
    ensures s.time == midnight ==> multiset(DailySelection(store, device, midnight))[s] == multiset(store)[s]
  {
    WhereCount(store, device, DailyWindow(midnight), s);
  }

  /** The first entry of the store's result array, absent when the array is empty. */
  function FirstResult(resources: seq<real>): Option<real>
  {
    if resources == [] then None else Some(resources[0])
  }

  /** JavaScript `v || 0` on a number or `undefined`: every falsy value, absent or 0, gives 0. */
  function OrZero(v: Option<real>): real
  {
    if v.None? || v.value == 0.0 then 0.0 else v.value
  }

  /** `hourlyTotal` and `dailyTotal`: `resources[0] || 0`. An empty result reports 0;
      otherwise the stored sum is reported unchanged, since a falsy 0 is replaced by 0. */
  function StoredTotal(resources: seq<real>): (t: real)
    ensures resources == [] ==> t == 0.0
    ensures resources != [] ==> t == resources[0]
  {
    OrZero(FirstResult(resources))
  }
}
