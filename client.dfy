/** The dashboard's derivation for the newest reading (`fetchLatestData` in App.js):
    it recomputes the heat-transfer formula from the document the latest-data
    endpoint returns and merges three derived fields into a copy of that document. */
module Client {
  import opened Readings
  import HeatTransfer
  import Endpoints

  /** The JSON values a stored document's fields can hold. */
  datatype Json = Num(n: real) | Text(s: string) | Bool(b: bool) | Null

  /** A JSON document, field name to value. */
  type Document = map<string, Json>

  /** The client's own copies of the physical constants. */
  const Density: real := 1000.0
  const SpecificHeat: real := 4186.0

  /** The names of the three fields the client sets on the record it displays. */
  const DerivedFields: set<string> := {"flowRateLpm", "deltaT", "heatTransfer"}

  /** A sensor value as the formula sees it: a number, or `null`. */
  predicate IsArithmetic(v: Json)
  {
    v.Num? || v.Null?
  }

  /** JavaScript's conversion of such a value to a number in `+` and `-`: `null` is 0. */
  function ToNumber(v: Json): (x: real)
    requires IsArithmetic(v)
    ensures v.Num? ==> x == v.n
    ensures v.Null? ==> x == 0.0
  {
    if v.Num? then v.n else 0.0
  }

  /** The document carries the four fields the formula reads, each a number or null. */
  predicate HasReadingFields(doc: Document)
  {
    && "Flow1" in doc && IsArithmetic(doc["Flow1"])
    && "Flow2" in doc && IsArithmetic(doc["Flow2"])
    && "tempC3" in doc && IsArithmetic(doc["tempC3"])
    && "tempC4" in doc && IsArithmetic(doc["tempC4"])
  }

  /** The reading that the server's aggregation would see for the same document: the
      numbers JavaScript's arithmetic makes of the four fields. */
  function ReadingOf(doc: Document): (r: Reading)
    requires HasReadingFields(doc)
    ensures doc["Flow1"].Null? ==> r.flow1 == 0.0
    ensures doc["Flow2"].Null? ==> r.flow2 == 0.0
    ensures doc["tempC3"].Null? ==> r.tempC3 == 0.0
    ensures doc["tempC4"].Null? ==> r.tempC4 == 0.0
    ensures doc["Flow1"].Num? ==> r.flow1 == doc["Flow1"].n
    ensures doc["Flow2"].Num? ==> r.flow2 == doc["Flow2"].n
    ensures doc["tempC3"].Num? ==> r.tempC3 == doc["tempC3"].n
    ensures doc["tempC4"].Num? ==> r.tempC4 == doc["tempC4"].n
  {
    Reading(ToNumber(doc["Flow1"]), ToNumber(doc["Flow2"]), ToNumber(doc["tempC3"]), ToNumber(doc["tempC4"]))
  }

  /** `flowRateLpm = latestData.Flow1 + latestData.Flow2`. */
  function FlowRateLpm(doc: Document): (f: real)
    requires HasReadingFields(doc)
    ensures f == HeatTransfer.FlowRateLpm(ReadingOf(doc))
  {
    ToNumber(doc["Flow1"]) + ToNumber(doc["Flow2"])
  }

  /** `deltaT = latestData.tempC3 - latestData.tempC4`, sign kept. */
  function DeltaT(doc: Document): (d: real)
    requires HasReadingFields(doc)
    ensures d == HeatTransfer.DeltaT(ReadingOf(doc))
  {
    ToNumber(doc["tempC3"]) - ToNumber(doc["tempC4"])
  }

  /** The client's formula on the two displayed numbers: L/min to m³/s, m³/s to kg/s,
      kg/s to W, then W to kW. */
  function Formula(flowRateLpm: real, deltaT: real): real
  {
    var flowRateM3s := flowRateLpm / (1000.0 * 60.0);
    var massFlowRate := flowRateM3s * Density;
    var heatTransfer := massFlowRate * SpecificHeat * deltaT;
    heatTransfer / 1000.0
  }

  /** On the numbers of a reading, the client's formula is the server's per-sample
      watt term over 1000. */
  lemma FormulaIsServerTerm(r: Reading)
    ensures Formula(HeatTransfer.FlowRateLpm(r), HeatTransfer.DeltaT(r)) == HeatTransfer.HeatTransferW(r) / 1000.0
  {
  }

  /** The client's formula in closed form: 4186/60 W per (L/min · K), over 1000. */
  lemma FormulaClosedForm(flowRateLpm: real, deltaT: real)
    ensures Formula(flowRateLpm, deltaT) == flowRateLpm / 60000.0 * 1000.0 * 4186.0 * deltaT / 1000.0
  {
  }

  /** The displayed heat transfer in kW: the client's formula on the displayed flow rate
      and deltaT. It is the server's per-sample watt term for the same reading over 1000. */
  function HeatTransferKW(doc: Document): (kw: real)
    requires HasReadingFields(doc)
    ensures kw == HeatTransfer.HeatTransferW(ReadingOf(doc)) / 1000.0
  {
    FormulaIsServerTerm(ReadingOf(doc));
    Formula(FlowRateLpm(doc), DeltaT(doc))
  }

  /** `{ ...latestData, flowRateLpm, deltaT, heatTransfer }` for given derived values:
      the document with the three derived fields set or overridden. */
  function Merge(doc: Document, flowRateLpm: real, deltaT: real, heatTransfer: real): (rec: Document)
    requires HasReadingFields(doc)
    ensures rec.Keys == doc.Keys + DerivedFields
    ensures forall k :: k in doc && k !in DerivedFields ==> rec[k] == doc[k]
    ensures rec["flowRateLpm"] == Num(flowRateLpm)
    ensures rec["deltaT"] == Num(deltaT)
    ensures rec["heatTransfer"] == Num(heatTransfer)
    ensures HasReadingFields(rec) && ReadingOf(rec) == ReadingOf(doc)
  {
    var rec := doc["flowRateLpm" := Num(flowRateLpm)]["deltaT" := Num(deltaT)]["heatTransfer" := Num(heatTransfer)];
    SameReadingFields(doc, rec);
    rec
  }

  /** The record the dashboard displays: every field of the document is kept unchanged
      except the three derived ones, which are set or overridden with the values the
      server's formula gives for the same reading. */
  function DeriveLatest(doc: Document): (rec: Document)
    requires HasReadingFields(doc)
    ensures rec.Keys == doc.Keys + DerivedFields
    ensures forall k :: k in doc && k !in DerivedFields ==> rec[k] == doc[k]
    ensures rec["flowRateLpm"] == Num(HeatTransfer.FlowRateLpm(ReadingOf(doc)))
    ensures rec["deltaT"] == Num(HeatTransfer.DeltaT(ReadingOf(doc)))
    ensures rec["heatTransfer"] == Num(HeatTransfer.HeatTransferW(ReadingOf(doc)) / 1000.0)
    ensures HasReadingFields(rec) && ReadingOf(rec) == ReadingOf(doc)
  {
    Merge(doc, FlowRateLpm(doc), DeltaT(doc), HeatTransferKW(doc))
  }

  /** A document that agrees with another on the four sensor fields yields the same reading. */
  lemma SameReadingFields(doc: Document, other: Document)
    requires HasReadingFields(doc)
    requires forall k :: k in doc && k !in DerivedFields ==> k in other && other[k] == doc[k]
    ensures HasReadingFields(other) && ReadingOf(other) == ReadingOf(doc)
  {
    assert "Flow1" !in DerivedFields && "Flow2" !in DerivedFields;
    assert "tempC3" !in DerivedFields && "tempC4" !in DerivedFields;
  }

  /** A document whose `Flow1` and `tempC3` are null: JavaScript's arithmetic reads them
      as 0, so 30 L/min at deltaT = 0 - 5 shows a finite negative value, -10.465 kW. */
  lemma NullFieldsReadAsZero()
    ensures var doc := map["Flow1" := Null, "Flow2" := Num(30.0), "tempC3" := Null, "tempC4" := Num(5.0)];
            HasReadingFields(doc) && FlowRateLpm(doc) == 30.0 && DeltaT(doc) == -5.0 &&
            HeatTransferKW(doc) == -10.465
  {
    var doc := map["Flow1" := Null, "Flow2" := Num(30.0), "tempC3" := Null, "tempC4" := Num(5.0)];
    assert ReadingOf(doc) == Reading(0.0, 30.0, 0.0, 5.0);
  }

  /** A store holding only the latest document, stamped inside the five-minute window,
      makes the server report the same kW value as the dashboard's latest reading. */
  lemma LatestMatchesFiveMinutesTotal(doc: Document, device: string, time: int, now: int)
    requires HasReadingFields(doc)
    requires now - 300000 <= time <= now
    ensures Endpoints.FiveMinutesTotal([Sample(device, time, ReadingOf(doc))], device, now) == HeatTransferKW(doc)
  {
    var s := Sample(device, time, ReadingOf(doc));
    Endpoints.FiveMinutesTotalAddSample([], s, device, now);
    Endpoints.FiveMinutesTotalWithoutData([], device, now);
    assert [] + [s] == [s];
  }
}
