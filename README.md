# Solar panel dashboard: single-panel analytics

A Dafny model of the analytics behind the solar-panel dashboard: the Flask
backend that keeps one panel's record (installation ratings, three reading
series, the defect history and the last-inspection stamp) and serves views
of it, and the derived figures the panel-comparison card computes from the
panel-info body.

- `py_builtins.dfy` (module `PyBuiltins`): Python list slicing with negative
  bounds (`s[-k:]`, `s[-60:-30]`), `np.mean` as an exact real mean, and
  `round(x, n)` as decimal rounding on reals.
- `app.dfy` (module `App`): the backend. The class `Panel` holds the fields
  of `panel_data` that the endpoints change (the series and the defect
  history are appended to, a series is reassigned when it is trimmed, and
  the inspection stamp is set); the installation data, which nothing
  changes, are module constants. Storing a reading
  (`GetCurrentReading`) and recording a detection (`DetectDefects`) are
  methods; the history, defect-list, panel-info and predictive-maintenance
  views are functions. The history, panel-info and predictive-maintenance
  views each have a pure counterpart over the series that the lemmas speak
  about; the defect list is built from the record directly.
- `panel_comparison.dfy` (module `PanelComparison`): efficiency and
  degradation figures, the 85/70 colour bands, the "Degraded" marker and the
  condition chip's colour and icon.

Sensor values, the defect detector's output and `datetime.now()` stamps are
parameters. What the code computes, and the model with it:

- the condition thresholds are strict (`>`);
- the panel-info health score is the mean of the current and voltage
  efficiencies, with no term for defects;
- the trend is the mean of the newest 30 currents minus the mean of the
  block of up to 30 before them (0 with 30 readings or fewer);
- the maintenance health score uses current only;
- readings are not checked for timestamp order;
- `defect_count` counts unresolved records, not individual defects;
- predictions are `max(0, score - trend * days)` with no upper clamp, so a
  falling current raises the prediction.

## Model

| member | source | states |
|---|---|---|
| `App.Panel.constructor` | backend/app.py:20-31 | the record starts with empty series, no defect records and no inspection stamp, and satisfies the invariant |
| `App.Panel.Valid` | backend/app.py:125-133 | the record's invariant: the three series are aligned and bounded, record i has id i + 1 and status active, and there is an inspection stamp exactly when there is a record |
| `App.Panel.GetCurrentReading` | backend/app.py:56-78 | appends one sample per series under a single stamp, trims every series to its newest 1000 entries, echoes the reading, leaves the defect history and inspection stamp unchanged, and keeps the series aligned |
| `App.Panel.TrimSeries` | backend/app.py:69-71 | the loop over the three keys leaves every series trimmed to its newest 1000 entries and the defect fields unchanged |
| `App.Panel.SetSeries` | backend/app.py:71 | reassigns one series of the record; the other series and the defect fields are unchanged |
| `App.Trimmed` | backend/app.py:69-71 | a trimmed series holds min(n, 1000) entries and is the newest suffix of the untrimmed one |
| `App.IngestKeepsNewest` | backend/app.py:63-71 | after storing a sample a bounded series holds min(n + 1, 1000) entries, ends with the new sample and keeps its previous newest entries in order |
| `App.IngestKeepsAligned` | backend/app.py:63-71 | storing one reading keeps the three series of equal length, within 1000, and sharing timestamps index by index |
| `App.Panel.DetectDefects` | backend/app.py:107-145 | a missing image part or an empty file name gives 400 with its message and changes nothing; otherwise appends exactly one record numbered previous length + 1 with status active, sets the inspection stamp, returns success with the detections and the record's stamp, and leaves the series unchanged |
| `App.Unresolved` | backend/app.py:102 | the filtered records are among the history's, none is resolved, and there are no more of them than records |
| `App.ActiveDefectCount` | backend/app.py:102 | `defect_count` is at most the number of records, and 0 when every record is resolved |
| `App.UnresolvedAppend` | backend/app.py:102 | the unresolved filter distributes over appending one record |
| `App.CountAfterAppend` | backend/app.py:102 | appending a record raises `defect_count` by one exactly when the record is not resolved |
| `App.CountOfActiveHistory` | backend/app.py:129 | over a history of active records (the only status the backend writes) `defect_count` equals the number of records |
| `App.Panel.GetDefects` | backend/app.py:162-167 | the defect list is the whole history, `total` is its length, and the records are numbered 1 to `total` |
| `App.HistoryOf` | backend/app.py:153-158 | each returned series is a suffix of the stored one, oldest first; with limit k > 0 it has min(k, n) entries; with limit 0 it is the whole series; the limit defaults to 100 |
| `App.Panel.GetReadingsHistory` | backend/app.py:151-159 | the three returned series stay aligned (equal lengths, shared timestamps) |
| `App.AlignedTails` | backend/app.py:156-158 | cutting aligned series at the same `-limit` keeps them aligned |
| `PyBuiltins.SliceFrom` | backend/app.py:71 | `s[i:]` is a tail of s: for i >= 0 it drops the first i entries, for i < 0 it keeps the last -i, both clamped to the list |
| `PyBuiltins.Slice` | backend/app.py:177 | `s[i:j]` is the contiguous block starting where i lands, as long as the gap to where j lands and empty when there is none |
| `PyBuiltins.NegativeStartSlice` | backend/app.py:156 | `s[-k:]` is the last min(k, n) entries for k > 0, the whole list for k = 0 and drops the first min(-k, n) entries for k < 0 |
| `PyBuiltins.NegativeWindowSlice` | backend/app.py:177 | `s[-a:-b]` is the block of at most a - b entries ending b entries before the end, empty when the list has at most b entries |
| `App.AverageOrRating` | backend/app.py:83-84 | with no readings the average is the rating; otherwise it is the mean of the newest min(n, 100) values, equals the rating when those are all at the rating, and lies in [0, rating] when they do |
| `App.AverageIgnoresOlderReadings` | backend/app.py:83-84 | readings older than the newest 100 do not change the average |
| `App.MeanOfValues` | backend/app.py:83-84 | the mean value of a non-empty block of samples lies within any bounds its values do |
| `App.Efficiency` | backend/app.py:87-88 | efficiency is exactly 100 iff the reading equals the rating, and at most 100 iff the reading is at most a positive rating |
| `App.Classify` | backend/app.py:91 | Excellent iff score > 90, Good iff 75 < score <= 90, Fair iff 60 < score <= 75, Poor iff score <= 60 |
| `App.InfoHealthScore` | backend/app.py:87-89 | averages at the ratings score exactly 100, and averages between 0 and the ratings score between 0 and 100 |
| `App.PanelInfoOf` | backend/app.py:83-104 | the condition is classified from the unrounded score over the two averages, `defect_count` counts unresolved records and is at most the number of records, and the inspection stamp is passed through |
| `App.Panel.GetPanelInfo` | backend/app.py:81-104 | on the record, `defect_count` is the number of records and the inspection stamp is the record's |
| `App.InfoWithoutReadings` | backend/app.py:83-100 | with no readings the reported ratings are the installation ratings, the health score is exactly 100 and the condition Excellent |
| `App.InfoHealthScoreInRange` | backend/app.py:83-89 | when the newest 100 readings of each series lie between 0 and the rating, the health score lies in [0, 100], whatever the older readings are |
| `App.InfoHealthScoreAtRating` | backend/app.py:83-91 | when the newest 100 readings of each series equal the ratings, the reported health score is exactly 100 and the condition Excellent, whatever the older readings and the defect history are |
| `PyBuiltins.MeanBounds` | backend/app.py:83-84 | a mean of values in [lo, hi] lies in [lo, hi] |
| `PyBuiltins.SumBounds` | backend/app.py:83-84 | a sum of n values in [lo, hi] lies in [n lo, n hi] |
| `PyBuiltins.SumConcat` | backend/app.py:83-84 | the sum of a concatenation is the sum of the parts' sums, so the order of accumulation does not change the total |
| `PyBuiltins.ConstantSum` | backend/app.py:83-84 | a sum of n equal values is n times that value |
| `PyBuiltins.Mean` | backend/app.py:83-84 | the mean of a list of equal values is that value |
| `PyBuiltins.RoundTo` | backend/app.py:98-100 | `round(x, n)` is a whole multiple of 10^-n and lies in (x - u/2, x + u/2] for that unit u, which singles out the nearest multiple (ties upwards) |
| `PyBuiltins.RoundToNonNegative` | backend/app.py:208-209 | rounding a non-negative value gives a non-negative value |
| `PyBuiltins.RoundToMonotonic` | backend/app.py:208-209 | rounding preserves order |
| `PyBuiltins.RoundToExact` | backend/app.py:98-100 | a value with at most n decimals rounds to itself |
| `App.Trend` | backend/app.py:179 | with 30 readings or fewer the trend is exactly 0 |
| `App.RecentCurrent` | backend/app.py:176 | the recent window is the newest min(n, 30) currents, in order |
| `App.OlderCurrent` | backend/app.py:177 | with more than 30 readings the older window is the block of at most 30 currents just before the newest 30; otherwise it is the recent window |
| `App.MaintenanceHealthScore` | backend/app.py:182 | when the newest 30 currents are at the rating the score is exactly 100, and when they lie between 0 and the rating it lies between 0 and 100 |
| `App.PriorityBand` | backend/app.py:185-193 | High iff score < 70 or more than 5 open records; Medium iff not High and (score < 80 or more than 2); Low otherwise; days are 7, 30 and 90 with the priority |
| `App.TrendLabel` | backend/app.py:206 | decreasing iff trend < -0.05, stable iff -0.05 <= trend < 0.05, improving iff trend >= 0.05 |
| `App.Recommendations` | backend/app.py:195-201 | each message is present iff its rule holds (trend < -0.1, more than 3 open records, score < 75), messages appear in rule order without repeats, and the list is empty iff no rule holds |
| `App.Prediction` | backend/app.py:208-209 | a predicted efficiency is never negative |
| `App.PredictiveMaintenance` | backend/app.py:170-210 | the answer is the 400 "Insufficient data" error exactly when there are no readings, and both predictions of a forecast are non-negative |
| `App.Panel.GetPredictiveMaintenance` | backend/app.py:170-173 | on the record, the endpoint fails exactly when the current series is empty |
| `App.ForecastWithFewReadings` | backend/app.py:176-209 | with 1 to 30 readings the forecast exists, the trend is stable, the degradation rule does not fire, and both predictions equal the rounded health score floored at 0 |
| `App.PredictionsFollowTrend` | backend/app.py:208-209 | a negative trend makes the 90-day prediction at least the 30-day one, a positive trend the reverse |
| `App.PredictionOrder` | backend/app.py:208-209 | a larger extrapolation never gives a smaller prediction |
| `App.PredictionIsUnclamped` | backend/app.py:208-209 | whenever `score - trend * days` is not negative the prediction is within 0.05 of it, so nothing caps it at 100 |
| `App.PredictionAboveScore` | backend/app.py:208-209 | with a trend of 0 or less and a non-negative score, every prediction is at least the rounded score |
| `PanelComparison.CurrentEfficiency` | frontend/src/components/PanelComparison.js:14 | current efficiency is 100 iff the reported current equals its installation rating |
| `PanelComparison.VoltageEfficiency` | frontend/src/components/PanelComparison.js:15 | voltage efficiency is 100 iff the reported voltage equals its installation rating |
| `PanelComparison.Degradation` | frontend/src/components/PanelComparison.js:16-17 | degradation is zero iff reported equals rating, negative iff the panel reports more than its rating, positive iff less |
| `PanelComparison.CurrentDegradation` | frontend/src/components/PanelComparison.js:16 | current degradation is 0 iff the reported current equals its rating, positive iff it is lower, which for a positive rating is iff current efficiency is below 100 |
| `PanelComparison.VoltageDegradation` | frontend/src/components/PanelComparison.js:17 | voltage degradation is 0 iff the reported voltage equals its rating, positive iff it is lower, which for a positive rating is iff voltage efficiency is below 100 |
| `PanelComparison.Band` | frontend/src/components/PanelComparison.js:78 | success iff above 85, warning iff in (70, 85], error iff at most 70 |
| `PanelComparison.HealthBarColor` | frontend/src/components/PanelComparison.js:137 | the health-score bar uses the same three bands (never info or default) |
| `PanelComparison.IsDegraded` | frontend/src/components/PanelComparison.js:101 | "Degraded" shows iff efficiency is below 90: every bar that is not green carries it, and a green bar carries it iff efficiency is in (85, 90) |
| `PanelComparison.MarkersOfReportedValue` | frontend/src/components/PanelComparison.js:93-101 | "Degraded" shows iff the reported value is under 90% of a positive rating; the bar is green iff it is over 85% and red iff at most 70% |
| `PanelComparison.ScaleThreshold` | frontend/src/components/PanelComparison.js:14-15 | an efficiency is below (above) p iff the reading is below (above) p% of a positive rating |
| `PanelComparison.ConditionColor` | frontend/src/components/PanelComparison.js:34-47 | Excellent, Good, Fair, Poor map to success, info, warning, error, and any other text to default |
| `PanelComparison.ConditionIcon` | frontend/src/components/PanelComparison.js:19-32 | a check circle iff Excellent or Good, an error sign iff Poor, a warning sign otherwise (unknown text included), coloured like the chip for the four labels |
| `PanelComparison.ChipOfBackendCondition` | frontend/src/components/PanelComparison.js:117-122 | every label the backend emits gets a non-default chip colour: success iff score > 90, error iff score <= 60 |
| `PanelComparison.HealthBarMatchesCondition` | frontend/src/components/PanelComparison.js:137 | an Excellent panel's health bar is green and a Poor panel's is red, although the bar uses the rounded score and the chip the unrounded one |
| `PanelComparison.BandOfRoundedScore` | frontend/src/components/PanelComparison.js:137 | rounding to one decimal keeps an Excellent score in the green band and a Poor score in the red one |
| `PanelComparison.DisplayWithoutReadings` | frontend/src/components/PanelComparison.js:14-137 | a panel without readings shows both efficiencies at 100, zero degradation, no "Degraded" marker, green bars and a green check chip |

## Left out

- Sensor simulation (`simulate_*`, backend/app.py:33-49): random; the reading values are parameters of `GetCurrentReading`.
- `datetime.now()`: each call is a timestamp parameter (`DetectDefects` takes two, one for the record and one for the inspection stamp).
- Flask routing, CORS, JSON serialisation and the health endpoint: transport only.
- Image decoding, the PNG/base64 echo of the image and the catch-all 500 answer of the detection endpoint: foreign libraries; the upload check is reduced to "has an image part" and "file name not empty".
- `App.Panel.DetectDefects`: does not model the 500 answer. A decoding or detector failure (backend/app.py:118-122) answers 500 before anything changes. An encoding failure at `image.save` (backend/app.py:137) answers 500 after the record has been appended and the inspection stamp set (backend/app.py:132-133), so the state changes even though the call fails.
- A non-integer `limit` on the history endpoint (an uncaught `ValueError` in `int(...)`): query-string parsing; `limit` is an optional integer.
- `backend/defect_detector.py` is not part of this model: its detections are an opaque parameter (their `bbox` field is dropped).
- `PyBuiltins.RoundTo`: rounds ties upwards on exact reals. When there are readings, the averages and scores it is applied to are numpy `float64` values, so numpy's rounding applies: it scales by 10^n, rounds half to even on the double and scales back. The error this adds is not modelled. With no readings they are the Python floats 8.5, 36.0 and 100.0, which Python's `round` leaves unchanged.
- `App.Efficiency`, `App.Classify`, `PanelComparison.Band`, `PanelComparison.IsDegraded` and `PanelComparison.MarkersOfReportedValue`: all arithmetic is exact real. In doubles, a value on a threshold may fall on either side of it. For example, `(32.4 / 36) * 100` is `89.99999999999999` in doubles, so the card shows "Degraded" where the model does not. Likewise `(30.6 / 36) * 100` is `85.00000000000001`, so the bar is green where the model says warning.
- React state, polling, charts, MUI rendering and the other frontend components: presentation only.
- Concurrency under the development server: every endpoint call is one atomic step.
