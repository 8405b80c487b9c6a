# Waste-heat recovery dashboard: heat-transfer totals and time windows

This project models the domain logic of a telemetry dashboard for a waste-heat
recovery unit. Sensor documents hold two flow rates (`Flow1`, `Flow2`, in L/min)
and two temperatures (`tempC3`, `tempC4`, in °C). The server reports heat
transfer totals over three windows: the last five minutes, the last hour and
the current day. The browser client recomputes the same formula for the newest
reading.

Modules:

- `Readings` (readings.dfy): a `Reading` holds the four numeric columns. A
  `Sample` is a stored document: device id, time in milliseconds and reading.
  The same file holds `Wrappers` (an `Option` type) and `SeqFacts` (one
  sequence lemma used by the order-independence proofs).
- `HeatTransfer` (heat.dfy): the per-reading watt term and the five-minute
  endpoint's `reduce` fold seeded with 0. The fold is proved equal to a plain
  sum. It is additive over concatenation and independent of order, and its
  kW conversion equals summing per-reading kW values.
- `Windows` (windows.dfy): the windows as a datatype with a membership
  predicate. The five-minute and hourly windows are `[now - span, now]`,
  closed at both ends. The daily window is `[midnight, midnight + one day)`.
  The daily bounds are also built the way server.js builds them: a small
  `JsDate` class whose setters change the held instant in place.
- `Query` (query.dfy): the store query's `WHERE` filter (device and window)
  and its column projection, and how both behave under reordering and
  concatenation of the store.
- `Endpoints` (endpoints.dfy): `fiveMinutesTotal` as a function of the store's
  contents and `now`; the selections the hourly and daily sums run over; the
  `resources[0] || 0` fallback.
- `Client` (client.dfy): the derivation in `fetchLatestData`. A JSON document
  is a map from field names to values. The derived record keeps every field
  and sets `flowRateLpm`, `deltaT` and `heatTransfer`. Its kW value equals the
  server's per-sample term divided by 1000.

Modelling choices:

- Numbers are exact `real`s, not IEEE doubles, so there is no rounding and
  no NaN.
- Times are integer milliseconds. The store compares ISO strings; here that
  comparison is ordinary integer comparison.
- "Now" and "midnight of the current local day" are parameters. The clock
  and the time zone are outside the model.
- The server's `Reading` holds the numbers that JavaScript's `+` and `-` make
  of the four fields. JavaScript converts a `null` field to 0 in that
  arithmetic, so a stored `null` reads as 0.0. The client model shows this
  conversion on JSON values: a number stays itself and `null` becomes 0.
  A field that is absent (`undefined`), a string or a boolean is not
  modelled. With an absent field JavaScript yields NaN, a string makes `+`
  concatenate, and a boolean becomes 0 or 1. Neither server.js nor App.js
  substitutes a default for these cases.

## Model

| member | source | states |
|---|---|---|
| HeatTransfer.HeatTransferW | server.js:82-86 | a reading's watts are 0 iff the combined flow or deltaT is 0; they are positive iff flow and deltaT have the same sign and negative iff the signs differ (nothing is clamped) |
| HeatTransfer.FlowRateLpm | server.js:82 | the definition of the combined flow `Flow1 + Flow2`; HeatTransferW and Client.FlowRateLpm carry its properties |
| HeatTransfer.DeltaT | server.js:83 | the definition of the signed difference `tempC3 - tempC4`; HeatTransferW and Client.DeltaT carry its properties |
| HeatTransfer.HeatTransferWClosedForm | server.js:78-86 | a reading contributes exactly ((Flow1+Flow2)/60000)·1000·4186·(tempC3−tempC4) W, which is 4186/60 W per L/min and kelvin |
| HeatTransfer.Reduce | server.js:81-89 | the definition of the `reduce` callback folded from left to right; ReduceIsSeedPlusSum carries its property |
| HeatTransfer.TotalHeatTransferW | server.js:81-89 | the definition of the fold seeded with 0; TotalIsSum, TotalEmpty, TotalSingleton, TotalConcat and TotalPermutation carry its properties |
| HeatTransfer.TotalKW | server.js:91 | the definition of the watt total divided by 1000; TotalKWIsSumOfKW and WorkedExample carry its properties |
| HeatTransfer.ReduceIsSeedPlusSum | server.js:81-89 | the left fold of the reduce callback from any seed is the seed plus the plain sum of the per-reading terms |
| HeatTransfer.TotalIsSum | server.js:81-89 | the fold seeded with 0 equals the plain sum of the per-reading terms: 0 is the fold's identity |
| HeatTransfer.TotalEmpty | server.js:81-91 | no readings give 0 W and 0 kW |
| HeatTransfer.TotalSingleton | server.js:81-89 | the total of one reading is exactly that reading's term |
| HeatTransfer.TotalConcat | server.js:81-89 | total(xs + ys) = total(xs) + total(ys) |
| HeatTransfer.TotalPermutation | server.js:81-89 | any reordering of the readings (same multiset) gives the same total |
| HeatTransfer.TotalKWIsSumOfKW | server.js:91 | dividing the watt total by 1000 equals summing each reading's kW value |
| HeatTransfer.NeutralReadingsAddNothing | server.js:82-88 | readings with zero combined flow or zero deltaT add 0 to the sum |
| HeatTransfer.SignOfSum | server.js:82-88 | a non-empty batch with positive flow and positive deltaT everywhere has a positive sum; with positive flow and negative deltaT everywhere, a negative sum |
| HeatTransfer.WorkedExample | server.js:78-91 | 60 L/min at a 10 K difference is reported as 41.86 kW |
| Windows.Contains | server.js:66 | the definition of the `>=` / `<=` comparisons (and `>=` / `<` at line 147) on a window; FiveMinuteWindow, HourlyWindow and DailyWindow state what it means for each window |
| Windows.FiveMinuteWindow | server.js:59-66 | the window is [now − 300000, now]: start ≤ end, and t is inside iff now − 300000 ≤ t ≤ now |
| Windows.HourlyWindow | server.js:107-114 | the window is [now − 3600000, now]: start ≤ end, and t is inside iff now − 3600000 ≤ t ≤ now |
| Windows.DailyWindow | server.js:138-147 | t is inside iff today ≤ t < today + 86400000; midnight today is inside, midnight tomorrow is not |
| Windows.JsDate.constructor | server.js:140 | a new date holds the instant it is built from |
| Windows.JsDate.SetToMidnight | server.js:139 | `setHours(0, 0, 0, 0)` moves the date back to the given midnight, which starts the day that holds the date's instant |
| Windows.JsDate.AddDays | server.js:141 | `setDate(getDate() + n)` moves the date n days later |
| Windows.ResolveDailyWindow | server.js:138-141 | the bounds built by mutating two dates are exactly the daily window for the midnight that starts now's day, and that window holds now |
| Windows.RollingWindowsIncludeBothEnds | server.js:66 | both rolling windows contain now and their exact start, and neither contains an instant 1 ms outside those ends |
| Windows.FiveMinutesWithinHour | server.js:60-108 | every instant of the five-minute window is in the hourly window |
| Windows.DailyWindowsPartition | server.js:139-147 | consecutive daily windows do not overlap and cover every instant of both days |
| Query.Matches | server.js:66 | the definition of the WHERE clause: the device matches and the time is in the window; Where carries its properties |
| Query.Where | server.js:66 | the filter's selection in store order is never longer than the store; WhereCount carries its property |
| Query.WhereCount | server.js:66 | the filter keeps exactly the samples of the device inside the window, each as often as it is stored, and no others |
| Query.Project | server.js:64 | the projection keeps one reading per selected document, in order |
| Query.WhereConcat | server.js:62-74 | filtering two parts of the store and joining the results is filtering the whole |
| Query.WherePermutation | server.js:62-74 | reordering the store reorders the selection and changes nothing else |
| Query.WhereNone | server.js:62-74 | a store with no sample of the device inside the window selects nothing |
| Query.ProjectConcat | server.js:64 | projection distributes over concatenation |
| Query.ProjectPermutation | server.js:64 | projecting a reordering gives a reordering of the projected readings |
| Endpoints.FiveMinutesTotal | server.js:59-91 | the definition of the five-minute endpoint: the kW total of the projected selection for [now − 300000, now]; the FiveMinutesTotal lemmas below carry its properties |
| Endpoints.HourlySelection | server.js:107-114 | the definition of the documents the hourly query sums over; FiveMinuteSelectionWithinHourly carries its property |
| Endpoints.DailySelection | server.js:138-147 | the definition of the documents the daily query sums over; DailySelectionBoundaries carries its property |
| Endpoints.FiveMinutesTotalWithoutData | server.js:81-91 | with no sample of the device in the last five minutes, `fiveMinutesTotal` is 0 |
| Endpoints.FiveMinutesTotalOrderIndependent | server.js:74-91 | `fiveMinutesTotal` does not depend on the order in which the store returns documents |
| Endpoints.FiveMinutesTotalSplit | server.js:74-91 | the value for a store made of two parts is the sum of the values of the parts |
| Endpoints.FiveMinutesTotalAddSample | server.js:66-91 | one more document adds its own kW value exactly when it is the device's and stamped in [now − 300000, now], ends included; otherwise it adds 0 |
| Endpoints.FiveMinutesTotalIsSumOfKW | server.js:91 | the reported kW value is the sum of the selected samples' kW values |
| Endpoints.FiveMinuteSelectionWithinHourly | server.js:60-114 | every document of the five-minute selection is in the hourly selection, at least as often |
| Endpoints.DailySelectionBoundaries | server.js:147 | a document of the device stamped at midnight tomorrow is not selected; one stamped at midnight today is |
| Endpoints.FirstResult | server.js:123 | the definition of `resources[0]`: absent for an empty result; StoredTotal carries its property |
| Endpoints.OrZero | server.js:123 | the definition of JavaScript `v \|\| 0` on a number or `undefined`; StoredTotal carries its property |
| Endpoints.StoredTotal | server.js:123-156 | `resources[0] \|\| 0`, at line 123 for `hourlyTotal` and line 156 for `dailyTotal`, gives 0 for an empty result and the stored sum unchanged otherwise, since a falsy 0 becomes 0 |
| Client.ToNumber | frontend/src/App.js:22-25 | JavaScript's number conversion in `+` and `-`: a number stays itself and `null` is 0 |
| Client.ReadingOf | frontend/src/App.js:22-25 | the reading the arithmetic sees, field by field: a null field reads as 0.0 and a number field reads as that number, whatever the other fields hold |
| Client.FlowRateLpm | frontend/src/App.js:22 | the client's flowRateLpm is Flow1 + Flow2, the server's combined flow for the same reading |
| Client.DeltaT | frontend/src/App.js:25 | the client's deltaT is tempC3 − tempC4 with its sign, as on the server |
| Client.Formula | frontend/src/App.js:32-44 | the definition of the client's chain on the displayed flow rate and deltaT (m³/s, kg/s, W, then `/ 1000`); FormulaIsServerTerm and FormulaClosedForm carry its properties |
| Client.FormulaIsServerTerm | frontend/src/App.js:28-44 | on a reading's combined flow and deltaT, the client's formula gives the server's per-sample watt term over 1000 |
| Client.FormulaClosedForm | frontend/src/App.js:28-44 | the client's formula is (flowRateLpm/60000)·1000·4186·deltaT/1000 |
| Client.HeatTransferKW | frontend/src/App.js:28-44 | the displayed kW, computed from the document's fields, is the server's per-sample watt term for the same reading over 1000 |
| Client.Merge | frontend/src/App.js:40-45 | the spread keeps every field of the document except the three derived ones, sets those to the given values, and leaves the four sensor fields readable as the same reading |
| Client.DeriveLatest | frontend/src/App.js:22-45 | the record keeps every field of the document unchanged except flowRateLpm, deltaT and heatTransfer; those hold the server's combined flow, deltaT and watt term over 1000 for the same reading; its keys are the document's plus those three, and it reads as the same reading |
| Client.NullFieldsReadAsZero | frontend/src/App.js:22-44 | `{Flow1: null, Flow2: 30, tempC3: null, tempC4: 5}` gives flowRateLpm 30, deltaT −5 and a finite −10.465 kW |
| Client.LatestMatchesFiveMinutesTotal | frontend/src/App.js:22-44 | for a store holding only the latest document, stamped in the window, the server's `fiveMinutesTotal` equals the client's kW value |

## Left out

- The Express app is not modelled: routing, CORS and JSON middleware, HTTP status codes, `app.listen` (server.js:1-19, 164-166), and the logging by `console.log` of the five-minute raw data (server.js:75) and by `console.error` in the error paths (server.js:93, 125, 158). This is I/O plumbing.
- The latest-data endpoint is not modelled: `SELECT TOP 1 ... ORDER BY c.time DESC` and its 404 (server.js:22-49). It is HTTP glue over a store query.
- The Cosmos DB client, its configuration from environment variables and `fetchAll` (server.js:10-14, 74) are not modelled. The store is a foreign network service; the model takes its contents as a sequence of samples.
- `SELECT VALUE SUM(c.heatTransfer)` in the hourly and daily endpoints (server.js:112, 145) is not modelled. The sum runs inside the store over a stored field this code never writes. Only the windows and the selected documents are modelled.
- Endpoints.StoredTotal: a NaN or non-number in `resources[0]` is not modelled, because numbers are exact reals here.
- Windows.JsDate.SetToMidnight: local time zones and daylight-saving time are not modelled. The caller supplies midnight.
- Windows.JsDate.AddDays: every day is 86400000 ms long. A day affected by daylight-saving time is not.
- Windows.ResolveDailyWindow: midnight is not computed from `now`. The caller supplies it and must supply the midnight that starts now's day, taken as 86400000 ms long.
- ISO-8601 formatting of the bounds and the store's string comparison are not modelled. Times are integers compared as integers.
- Rounding is not modelled: IEEE doubles are replaced by exact reals.
- Client.DeriveLatest: `toFixed(2)` is not modelled. The three derived fields hold the exact numbers rather than two-decimal strings (App.js:42-44, shown at 95-97).
- React state, `useEffect`, `setInterval` polling, `Promise.all` and error display (App.js:4-20, 47-82) are not modelled. They are UI and concurrency.
- JSX rendering (App.js:84-111) and frontend/src/components/TemperatureChart.js are not modelled. They are UI over a charting library.
- Absent (`undefined`) and string sensor fields are not modelled. JavaScript's `+` and `-` give NaN for an absent field, and `+` concatenates with a string. The model requires each of the four fields to be a number or `null`. A boolean field, which JavaScript converts to 0 or 1, is left out with them. On the server the `Reading` already holds the converted numbers.
