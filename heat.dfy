/** The heat-transfer aggregation of the five-minute endpoint: every reading
    contributes `mass flow * specific heat * deltaT` watts, and the contributions
    are folded with a running sum that starts at 0. */
module HeatTransfer {
  import opened Readings
  import SeqFacts

  /** Density of water in kg/m³. */
  const Density: real := 1000.0
  /** Specific heat of water in J/(kg·K). */
  const SpecificHeat: real := 4186.0

  /** Combined flow of both meters, in L/min. */
  function FlowRateLpm(r: Reading): real { r.flow1 + r.flow2 }

  /** Temperature difference between the two probes; the sign is kept. */
  function DeltaT(r: Reading): real { r.tempC3 - r.tempC4 }

  /** Watts carried by one reading: L/min to m³/s, m³/s to kg/s, then kg/s to W.
      Nothing is clamped, so the sign of the result is the sign of flow times deltaT. */
  function HeatTransferW(r: Reading): (w: real)
    ensures w == 0.0 <==> FlowRateLpm(r) == 0.0 || DeltaT(r) == 0.0
    ensures w > 0.0 <==> (FlowRateLpm(r) > 0.0 && DeltaT(r) > 0.0) || (FlowRateLpm(r) < 0.0 && DeltaT(r) < 0.0)
    ensures w < 0.0 <==> (FlowRateLpm(r) > 0.0 && DeltaT(r) < 0.0) || (FlowRateLpm(r) < 0.0 && DeltaT(r) > 0.0)
  {
    var flowRateM3s := FlowRateLpm(r) / (1000.0 * 60.0);
    var massFlowRate := flowRateM3s * Density;
    SignOfProduct(massFlowRate * SpecificHeat, DeltaT(r));
    massFlowRate * SpecificHeat * DeltaT(r)
  }

  /** The sign rules for a product of two reals. */
  lemma SignOfProduct(a: real, b: real)
    ensures a * b == 0.0 <==> a == 0.0 || b == 0.0
    ensures a * b > 0.0 <==> (a > 0.0 && b > 0.0) || (a < 0.0 && b < 0.0)
  {
    if a > 0.0 && b < 0.0 { assert a * b < 0.0; }
    if a < 0.0 && b > 0.0 { assert a * b < 0.0; }
  }

  /** The contribution of one reading in closed form: 4186/60 W per (L/min · K). */
  lemma HeatTransferWClosedForm(r: Reading)
    ensures HeatTransferW(r) == (r.flow1 + r.flow2) / 60000.0 * 1000.0 * 4186.0 * (r.tempC3 - r.tempC4)
    ensures HeatTransferW(r) == 4186.0 / 60.0 * FlowRateLpm(r) * DeltaT(r)
  {
  }

  /** The `reduce` callback applied from left to right, starting from `sum`. */
  function Reduce(sum: real, items: seq<Reading>): real
    decreases |items|
  {
    if items == [] then sum
    else Reduce(sum + HeatTransferW(items[0]), items[1..])
  }

  /** The watt total of the five-minute endpoint: the fold seeded with 0. */
  function TotalHeatTransferW(items: seq<Reading>): real
  {
    Reduce(0.0, items)
  }

  /** The kW value the five-minute endpoint reports: the watt total divided by 1000. */
  function TotalKW(items: seq<Reading>): real
  {
    TotalHeatTransferW(items) / 1000.0
  }

  /** Reference definition: the plain sum of the per-reading contributions. */
  function SumW(items: seq<Reading>): real
  {
    if items == [] then 0.0 else HeatTransferW(items[0]) + SumW(items[1..])
  }

  /** Reference definition: the per-reading kW values summed, the kW total as if
      each reading were converted first. */
  function SumKW(items: seq<Reading>): real
  {
    if items == [] then 0.0 else HeatTransferW(items[0]) / 1000.0 + SumKW(items[1..])
  }

  /** Folding from any seed adds the plain sum to the seed. */
  lemma {:induction false} ReduceIsSeedPlusSum(sum: real, items: seq<Reading>)
    ensures Reduce(sum, items) == sum + SumW(items)
    decreases |items|
  {
    if items != [] {
      ReduceIsSeedPlusSum(sum + HeatTransferW(items[0]), items[1..]);
    }
  }

  /** The fold seeded with 0 is exactly the plain sum: 0 is the fold's identity. */
  lemma TotalIsSum(items: seq<Reading>)
    ensures TotalHeatTransferW(items) == SumW(items)
  {
    ReduceIsSeedPlusSum(0.0, items);
  }

  /** No readings, no heat: the fold returns its seed. */
  lemma TotalEmpty()
    ensures TotalHeatTransferW([]) == 0.0 && TotalKW([]) == 0.0
  {
  }

  /** A single reading contributes exactly its own term. */
  lemma TotalSingleton(r: Reading)
    ensures TotalHeatTransferW([r]) == (r.flow1 + r.flow2) / 60000.0 * 1000.0 * 4186.0 * (r.tempC3 - r.tempC4)
  {
    TotalIsSum([r]);
    assert [r][1..] == [];
    HeatTransferWClosedForm(r);
  }

  lemma {:induction false} SumConcat(xs: seq<Reading>, ys: seq<Reading>)
    ensures SumW(xs + ys) == SumW(xs) + SumW(ys)
    decreases |xs|
  {
    if xs == [] {
      assert xs + ys == ys;
    } else {
      assert (xs + ys)[1..] == xs[1..] + ys;
      SumConcat(xs[1..], ys);
    }
  }

  /** The total of two batches of readings is the sum of their totals. */
  lemma TotalConcat(xs: seq<Reading>, ys: seq<Reading>)
    ensures TotalHeatTransferW(xs + ys) == TotalHeatTransferW(xs) + TotalHeatTransferW(ys)
  {
    TotalIsSum(xs + ys);
    TotalIsSum(xs);
    TotalIsSum(ys);
    SumConcat(xs, ys);
  }

  lemma {:induction false} SumPermutation(xs: seq<Reading>, ys: seq<Reading>)
    requires multiset(xs) == multiset(ys)
    ensures SumW(xs) == SumW(ys)
    decreases |xs|
  {
    if xs == [] {
      assert |ys| == |multiset(ys)| == 0;
    } else {
      var a := xs[0];
      var i := SeqFacts.MatchFirst(xs, ys);
      var rest := ys[..i] + ys[i + 1..];
      SumPermutation(xs[1..], rest);
      SumConcat(ys[..i], ys[i + 1..]);
      SumConcat(ys[..i] + [a], ys[i + 1..]);
      SumConcat(ys[..i], [a]);
    }
  }

  /** The total does not depend on the order in which the store returns the readings. */
  lemma TotalPermutation(xs: seq<Reading>, ys: seq<Reading>)
    requires multiset(xs) == multiset(ys)
    ensures TotalHeatTransferW(xs) == TotalHeatTransferW(ys)
  {
    TotalIsSum(xs);
    TotalIsSum(ys);
    SumPermutation(xs, ys);
  }

  lemma {:induction false} SumKWIsSumWOver1000(items: seq<Reading>)
    ensures SumKW(items) == SumW(items) / 1000.0
    decreases |items|
  {
    if items != [] {
      SumKWIsSumWOver1000(items[1..]);
    }
  }

  /** Converting the watt total to kW once equals summing per-reading kW values. */
  lemma TotalKWIsSumOfKW(items: seq<Reading>)
    ensures TotalKW(items) == SumKW(items)
  {
    TotalIsSum(items);
    SumKWIsSumWOver1000(items);
  }

  /** Readings with no combined flow or no temperature difference add nothing. */
  lemma {:induction false} NeutralReadingsAddNothing(items: seq<Reading>)
    requires forall k :: 0 <= k < |items| ==> FlowRateLpm(items[k]) == 0.0 || DeltaT(items[k]) == 0.0
    ensures SumW(items) == 0.0
    decreases |items|
  {
    if items != [] {
      NeutralReadingsAddNothing(items[1..]);
    }
  }

  /** A batch of readings that all have positive flow and a positive temperature
      difference has a positive total; one with every deltaT negative has a negative total. */
  lemma {:induction false} SignOfSum(items: seq<Reading>)
    requires items != []
    ensures (forall k :: 0 <= k < |items| ==> FlowRateLpm(items[k]) > 0.0 && DeltaT(items[k]) > 0.0) ==> SumW(items) > 0.0
    ensures (forall k :: 0 <= k < |items| ==> FlowRateLpm(items[k]) > 0.0 && DeltaT(items[k]) < 0.0) ==> SumW(items) < 0.0
    decreases |items|
  {
    if |items| > 1 {
      SignOfSum(items[1..]);
    }
  }

  /** 60 L/min at a 10 K difference is 41.86 kW. */
  lemma WorkedExample()
    ensures TotalKW([Reading(60.0, 0.0, 50.0, 40.0)]) == 41.86
  {
  }
}
