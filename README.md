# Indoor health hub — a Dafny model of its scoring, alerting and storage logic

The indoor health hub collects readings from room sensors (temperature, humidity, PM2.5, PM10,
CO₂, VOCs, noise, light). It turns them into an overall health score, a list of alerts and a
list of recommendations. There are two halves:

- **The dashboard front end.**
  - A mock engine (`src/lib/mockData.ts`) classifies each reading into good, moderate, poor or
    hazardous.
  - The same mock engine computes a weighted score, picks at most four recommendations and
    raises alerts.
  - The sensor context (`src/contexts/SensorContext.tsx`) holds that state and changes it: refresh,
    the demo toggle, device selection and alert acknowledgement.
  - The health explainer explains up to three factors.
  - The second dashboard's sensor grid and sensor cards classify live readings into three levels
    and print "N s/m/h ago" labels.
- **The Python backend.**
  - A bucketed health-score engine, a threshold alert engine and a recommendation engine.
  - A PM-based AQI engine: piecewise-linear interpolation over the PM2.5 and PM10 breakpoint
    tables, then Python's banker's rounding.
  - The `monacos` routes with their in-memory cache of the latest reading.
  - The `main.py` in-memory store: latest state, a 60-reading history, an alert log merged by id,
    and the device list with its online/offline status.

Each source file becomes one Dafny module. Stateless logic uses datatypes, functions and lemmas.

Code that builds a result step by step becomes a method with a loop or a sequence of `if`s:
`getExplanations`, both `generate*` procedures of the mock, the backend engines,
`calculate_sub_index` and the alert merge. Each such method is proved equal to a specification
function, and the properties are proved about that function.

State that is changed in place becomes a class:
- the React provider, `SensorContext.SensorProvider`;
- the routes' cache, `Monacos.LatestCache`;
- the backend's dictionaries, `DeviceStore.Store`.

Clocks are parameters (`now`). Python dicts are maps to `Option<real>`. Readings are reals.
Python's `round` is written out as round-half-to-even.

Two defects of the source are part of the model, not repaired:
- **Gaps in the AQI breakpoint tables.** A concentration strictly between two bands has no
  sub-index. For example, PM2.5 12.05 falls between 12.0 and 12.1, and PM10 54.5 between 54 and
  55. `AqiEngine.Pm25OutsideBandsIsNone` and `AqiEngine.Pm10OutsideBandsIsNone` prove it.
- **Stored readings cannot feed the alert engine.** `main.py` stores readings that lack the
  `air_quality` field the alert engine indexes. `DeviceStore.StoredReadingLacksAirQuality` proves
  it.

## Model

| member | source | states |
|---|---|---|
| MockData.GetStatus | src/lib/mockData.ts:51-56 | good exactly up to the good threshold; with ordered thresholds moderate, poor and hazardous exactly on the three intervals above it |
| MockData.GetStatusMonotone | src/lib/mockData.ts:51-56 | with ordered thresholds a larger reading never gets a better status |
| MockData.BandStatus | src/lib/mockData.ts:58-77 | for nested bands: good exactly inside the good band, hazardous exactly outside the poor band |
| MockData.BandStatusMonotone | src/lib/mockData.ts:58-77 | moving away from the good band, on either side, never improves the status |
| MockData.HumidityStatus | src/lib/mockData.ts:58-63 | good exactly on [30,50], moderate exactly on [20,30) or (50,60], hazardous exactly below 10 or above 70 |
| MockData.TemperatureStatus | src/lib/mockData.ts:65-70 | good exactly on [20,24], moderate exactly on [18,20) or (24,26], hazardous exactly below 15 or above 30 |
| MockData.LightStatus | src/lib/mockData.ts:72-77 | good exactly on [300,500], moderate exactly on [200,300) or (500,750], hazardous exactly below 100 or above 1000 |
| MockData.WeightsSumToOne | src/lib/mockData.ts:175-184 | the eight weights (as percentages) add up to 100 |
| MockData.WeightedSumExpanded | src/lib/mockData.ts:175-197 | the weighted sum is 20·CO₂ + 20·PM2.5 + 10·PM10 + 15·VOC + 10·temperature + 10·humidity + 10·noise + 5·light status points |
| MockData.RoundPercent | src/lib/mockData.ts:199 | `Math.round` of a non-negative percentage sum: the nearest integer, halves rounded up |
| MockData.OverallStatus | src/lib/mockData.ts:200-204 | good exactly from 80, moderate on [60,80), poor on [35,60), hazardous below 35 |
| MockData.HealthScoreOf | src/lib/mockData.ts:174-207 | the score lies in [15,100] and the status is the overall status of that score |
| MockData.ScoreIsHundredIffAllGood | src/lib/mockData.ts:174-207 | the score is 100 exactly when all eight readings are good |
| MockData.ScoreIsFifteenIffAllHazardous | src/lib/mockData.ts:174-207 | the score is 15 exactly when all eight readings are hazardous |
| MockData.CalculateHealthScore | src/lib/mockData.ts:174-207 | the loop over the weights computes the score and status of `HealthScoreOf` |
| MockData.Recommend | src/lib/mockData.ts:210-290 | priority high exactly in the hazardous cases of each rule; lighting is always low, and increasing humidity (at most 60) is low |
| MockData.RecommendIdsDistinct | src/lib/mockData.ts:210-290 | different rules give different ids |
| MockData.FiringRecRulesKeep | src/lib/mockData.ts:213-290 | a rule is kept exactly when it is listed and fires, in rule order |
| MockData.SelectedRecRulesFire | src/lib/mockData.ts:213-292 | every selected rule fires, and the selection keeps rule order |
| MockData.SelectedRecommendations | src/lib/mockData.ts:210-293 | at most four recommendations, the i-th being the recommendation of the i-th selected rule |
| MockData.RecommendationIdsUnique | src/lib/mockData.ts:210-293 | at most four recommendations, with pairwise distinct ids |
| MockData.NothingCutWhenFew | src/lib/mockData.ts:292 | when at most four rules fire, every firing rule survives the `slice(0, 4)` |
| MockData.VentilateSelectedIff | src/lib/mockData.ts:213-222 | the ventilation recommendation, tried first, is present exactly when CO₂ is not good |
| MockData.TakeOfRecommendAll | src/lib/mockData.ts:292 | cutting the pushed recommendations to four equals recommending the first four firing rules |
| MockData.PushRecommendation | src/lib/mockData.ts:213-290 | one `if (...) push` step: pushed so far plus what the rest push is the full list |
| MockData.GenerateRecommendations | src/lib/mockData.ts:210-293 | the six pushes followed by the slice give `RecommendationsOf`, at most four recommendations |
| MockData.FiringAlertRulesKeep | src/lib/mockData.ts:327-369 | an alert rule is kept exactly when it is listed and fires, in rule order |
| MockData.AlertsProperties | src/lib/mockData.ts:324-372 | at most four alerts, in rule order, one exactly for each firing rule, all unacknowledged, stamped `now`, each of the kind its parameter's status gives (poor or hazardous) |
| MockData.PushAlert | src/lib/mockData.ts:327-369 | one `if (...) push` step of `generateAlerts` keeps the pushed alerts equal to those of the rules fired so far |
| MockData.GenerateAlerts | src/lib/mockData.ts:324-372 | the four pushes give `AlertsOf` |
| MockData.AllGoodIsQuiet | src/lib/mockData.ts:210-372 | an all-good reading yields no recommendation and no alert |
| SensorContext.Acknowledge | src/contexts/SensorContext.tsx:81-87 | the list keeps its length; each alert is mapped by "acknowledge if the id matches" |
| SensorContext.AcknowledgeEffect | src/contexts/SensorContext.tsx:81-87 | a matching alert becomes acknowledged and nothing else of it changes; other alerts are unchanged |
| SensorContext.AcknowledgeIdempotent | src/contexts/SensorContext.tsx:81-87 | acknowledging twice is acknowledging once |
| SensorContext.AcknowledgeUnknownId | src/contexts/SensorContext.tsx:81-87 | an id no alert carries leaves the list unchanged |
| SensorContext.UnreadCount | src/components/Header.tsx:12 | the badge never exceeds the number of alerts |
| SensorContext.UnreadCountBounds | src/components/Header.tsx:12 | the badge counts all alerts exactly when none is acknowledged, and zero exactly when all are |
| SensorContext.AcknowledgeLowersUnread | src/contexts/SensorContext.tsx:81-87 | acknowledging never raises the badge, and lowers it exactly when an unread alert carries the id |
| SensorContext.SensorProvider.constructor | src/contexts/SensorContext.tsx:36-44 | the initial state: no data, score or timestamp, empty lists, demo mode off, no selection |
| SensorContext.SensorProvider.RefreshData | src/contexts/SensorContext.tsx:46-53 | the demo or normal reading by mode; score, recommendations and alerts from that one reading; stamped `now`; mode, devices and selection unchanged |
| SensorContext.SensorProvider.ToggleDemoMode | src/contexts/SensorContext.tsx:73-75 | flips the mode; every other field unchanged |
| SensorContext.SensorProvider.SelectDevice | src/contexts/SensorContext.tsx:77-79 | records the selection; every other field unchanged |
| SensorContext.SensorProvider.AcknowledgeAlert | src/contexts/SensorContext.tsx:81-87 | the alerts become `Acknowledge(old alerts, id)`; every other field unchanged |
| SensorContext.ToggleTwice | src/contexts/SensorContext.tsx:73-75 | toggling twice restores the mode, data and alerts |
| SensorContext.RefreshLeavesAllUnread | src/contexts/SensorContext.tsx:46-53 | after a refresh the badge counts every alert |
| HealthExplainer.Explain | src/components/HealthExplainer.tsx:21-77 | the CO₂ severity is hazardous above 1500, poor on (1000,1500], moderate otherwise; mold is hazardous above 75 % humidity, poor otherwise; PM2.5, VOC and noise take the reading's status |
| HealthExplainer.ExplainFromKeep | src/components/HealthExplainer.tsx:17-78 | every explanation comes from a firing factor, every firing factor contributes, and candidate order is kept |
| HealthExplainer.ExplanationsProperties | src/components/HealthExplainer.tsx:17-79 | at most three explanations, in candidate order, each from a firing factor; nothing is cut when at most three fire |
| HealthExplainer.FirstTwoNeverCut | src/components/HealthExplainer.tsx:21-50 | the CO₂ and mold explanations are present exactly when they fire |
| HealthExplainer.PushExplanation | src/components/HealthExplainer.tsx:21-77 | one `if (...) push` step keeps "pushed so far + what the rest push" equal to the full list |
| HealthExplainer.GetExplanations | src/components/HealthExplainer.tsx:17-80 | the five pushes and the slice give `ExplanationsOf` |
| HealthExplainer.AllOptimalIff | src/components/HealthExplainer.tsx:109 | the "all optimal" panel shows exactly when no factor fires and the score is at least 80 |
| SensorGrid.GridStatus | indoor-health-hub/src/components/SensorGrid.tsx:4-13 | a missing value is moderate; good exactly up to the first limit; poor exactly above both limits |
| SensorGrid.GridStatusMonotone | indoor-health-hub/src/components/SensorGrid.tsx:4-13 | with ordered limits a larger reading never gets a better status |
| SensorGrid.Cards | indoor-health-hub/src/components/SensorGrid.tsx:36-79 | five cards titled Temperature, Humidity, PM2.5, Noise, Light, each showing its field; without a reading all are moderate with no value |
| SensorGrid.CardLimits | indoor-health-hub/src/components/SensorGrid.tsx:41-77 | the five limit pairs are ordered; each card is good exactly up to its first limit and poor exactly above its second |
| SensorCard.ElapsedSeconds | indoor-health-hub/src/components/SensorCard.tsx:40-43 | the floor of the elapsed milliseconds over 1000, and 0 for a future timestamp |
| SensorCard.LabelFor | indoor-health-hub/src/components/SensorCard.tsx:45-47 | seconds below 60, minutes below 3600, hours otherwise; the count is the floor of the elapsed time in that unit |
| SensorCard.FormatUpdatedAgo | indoor-health-hub/src/components/SensorCard.tsx:37-48 | no label exactly for a missing or empty timestamp; an unparsable one gives "NaNh ago"; otherwise the label of the elapsed seconds |
| SensorCard.FutureReadsZeroSeconds | indoor-health-hub/src/components/SensorCard.tsx:40-45 | a timestamp in the future reads "0s ago" |
| SensorCard.LabelTextRoundTrip | indoor-health-hub/src/components/SensorCard.tsx:45-47 | the printed label parses back to the label, so distinct labels print differently |
| HealthEngine.LevelOf | backend/health_engine.py:132-139 | Good exactly from 80, Moderate on [60,80), Poor on [40,60), Hazardous below 40 |
| HealthEngine.Pm25Check | backend/health_engine.py:20-28 | 30 points exactly above 35, 15 exactly on (15,35]; points deducted exactly when a reason is appended |
| HealthEngine.Pm10Check | backend/health_engine.py:31-39 | 20 points exactly above 100, 10 exactly on (45,100]; points deducted exactly when a reason is appended |
| HealthEngine.Co2Check | backend/health_engine.py:42-50 | 15 points exactly above 1200, 5 exactly on (800,1200]; points deducted exactly when a reason is appended |
| HealthEngine.VocsCheck | backend/health_engine.py:53-58 | 10 points exactly above 500, none otherwise; points deducted exactly when a reason is appended |
| HealthEngine.TemperatureCheck | backend/health_engine.py:70-78 | 20 points exactly below 15 or above 32, 10 exactly on [15,18) or (27,32]; points deducted exactly when a reason is appended |
| HealthEngine.HumidityCheck | backend/health_engine.py:81-89 | 15 points exactly above 70, 10 exactly below 30 or on (60,70]; points deducted exactly when a reason is appended |
| HealthEngine.NoiseCheck | backend/health_engine.py:101-109 | 15 points exactly above 75, 5 exactly on (55,75]; points deducted exactly when a reason is appended |
| HealthEngine.LightCheck | backend/health_engine.py:112-120 | 5 points exactly below 100 or above 1000, none otherwise; points deducted exactly when a reason is appended |
| HealthEngine.BucketA | backend/health_engine.py:8-61 | the respiratory bucket lies in [0,50] |
| HealthEngine.BucketB | backend/health_engine.py:9-92 | the thermal bucket lies in [0,30] |
| HealthEngine.BucketC | backend/health_engine.py:10-123 | the stressor bucket lies in [0,20] |
| HealthEngine.NoReasonsIffNoDeductions | backend/health_engine.py:12-120 | no reason among the first k checks exactly when none of them deducts |
| HealthEngine.ReportOf | backend/health_engine.py:129-145 | the score lies in [0,100] and the level is the level of the score |
| HealthEngine.TotalIsSumOfBuckets | backend/health_engine.py:129-130 | the total is the sum of the buckets: the clamp to [0,100] never binds |
| HealthEngine.AtMostEightReasons | backend/health_engine.py:12-120 | at most one reason per parameter, so at most eight |
| HealthEngine.FullScoreIffNoReasons | backend/health_engine.py:1-145 | the score is 100 exactly when there is no reason |
| HealthEngine.EmptyDictIsHealthy | backend/health_engine.py:20-113 | an empty dict takes every default: score 100, Good, no reasons |
| HealthEngine.SetPollutantField | backend/health_engine.py:20-113 | setting one pollutant key of the dict changes that reading and no other |
| HealthEngine.PollutantMonotone | backend/health_engine.py:19-123 | a larger PM2.5, PM10, CO₂, VOC or noise reading never raises the score |
| HealthEngine.DictPollutantMonotone | backend/health_engine.py:19-123 | the same monotonicity on the dict the engine receives |
| HealthEngine.RespiratoryBucket | backend/health_engine.py:19-61 | the category A statements compute bucket A and the first four checks' reasons |
| HealthEngine.ThermalBucket | backend/health_engine.py:69-92 | the category B statements compute bucket B and extend the reasons through six checks |
| HealthEngine.StressorBucket | backend/health_engine.py:100-123 | the category C statements compute bucket C and extend the reasons through eight checks |
| HealthEngine.CalculateHealthScore | backend/health_engine.py:1-145 | the whole procedure returns `HealthReportOf(data)` |
| AlertsEngine.Verdict | backend/alerts_engine.py:8-69 | MQ135 High above 1200 and Medium on (900,1200]; PMS5003 High above 50 and Medium on (35,50]; Sound Sensor High above 90 and Medium on (75,90]; BME680 Medium exactly above 75 and never High |
| AlertsEngine.AlertsUpToShape | backend/alerts_engine.py:7-69 | the first k sensors' alerts: each from a sensor whose verdict is that alert, one for every such sensor, in sensor order |
| AlertsEngine.AlertsOrder | backend/alerts_engine.py:3-71 | at most four alerts, in sensor order, no sensor twice |
| AlertsEngine.AlertsPresence | backend/alerts_engine.py:3-71 | a sensor has an alert exactly when its verdict is one, with that severity, title and message; all alerts carry the call's time |
| AlertsEngine.GenerateAlerts | backend/alerts_engine.py:3-71 | the four `if`/`elif` blocks return `AlertsOf(data, now)` |
| RecommendationEngine.TitlesDistinct | backend/recommendation_engine.py:4-26 | different rules give different titles |
| RecommendationEngine.RecommendationsUpToShape | backend/recommendation_engine.py:4-26 | the first k rules' recommendations are in rule order, each from a rule that applies, one for every such rule |
| RecommendationEngine.RecommendationsProperties | backend/recommendation_engine.py:1-28 | at most four, in rule order; a rule's recommendation is present exactly when its threshold holds; empty exactly when none holds |
| RecommendationEngine.GenerateRecommendations | backend/recommendation_engine.py:1-28 | the four `if`s return `RecommendationsOf(data)` |
| AqiEngine.RoundHalfEven | backend/aqi_engine.py:6-11 | Python's `round`: within one half of x, and even on a tie |
| AqiEngine.RoundInteger | backend/aqi_engine.py:6-11 | rounding an integer gives it back |
| AqiEngine.RoundMonotone | backend/aqi_engine.py:6-11 | rounding is monotone |
| AqiEngine.InterpolateProperties | backend/aqi_engine.py:6-11 | the interpolation maps the band's ends to its index ends and is monotone |
| AqiEngine.BandIndexProperties | backend/aqi_engine.py:6-11 | the rounded index maps the band's ends to its index ends, stays within them, and is monotone |
| AqiEngine.FirstBand | backend/aqi_engine.py:4-5 | the first band containing the concentration (both ends inclusive), or none when no band contains it |
| AqiEngine.CalculateSubIndex | backend/aqi_engine.py:3-12 | the loop with its early return yields `SubIndexOf(c, bps)` |
| AqiEngine.TablesValid | backend/aqi_engine.py:15-30 | both tables have five well-formed bands, disjoint and in increasing order |
| AqiEngine.NoBandNoIndex | backend/aqi_engine.py:3-12 | no sub-index exactly when no band contains the concentration |
| AqiEngine.SubIndexInBand | backend/aqi_engine.py:3-12 | a sub-index lies within the index range of its band |
| AqiEngine.TableSubIndexRange | backend/aqi_engine.py:3-30 | every PM2.5 and PM10 sub-index lies in [0,300] |
| AqiEngine.Pm25OutsideBandsIsNone | backend/aqi_engine.py:15-21 | below 0, in the gaps between bands (e.g. 12.05) or above 250.4 there is no PM2.5 sub-index |
| AqiEngine.Pm10OutsideBandsIsNone | backend/aqi_engine.py:24-30 | below 0, in the gaps between bands (e.g. 54.5) or above 424 there is no PM10 sub-index |
| AqiEngine.AqiCategory | backend/aqi_engine.py:33-43 | Good exactly up to 50, Moderate on (50,100], Poor on (100,150], Unhealthy on (150,200], Severe above 200 |
| AqiEngine.MaxPresent | backend/aqi_engine.py:50-55 | none exactly when both are none; otherwise one of them, at least as large as each present one |
| AqiEngine.PmAqiOf | backend/aqi_engine.py:46-65 | `None` exactly when both sub-indices are missing; otherwise the larger one, its category, and both components |
| AqiEngine.CalculatePmAqi | backend/aqi_engine.py:46-65 | the procedure returns `PmAqiOf` of the two table sub-indices |
| Monacos.SnapshotOf | backend/routes/monacos.py:129-135 | the cached entry copies every payload field and is stamped with the ingest time |
| Monacos.Deduction | backend/routes/monacos.py:34-48 | humidity costs 10 points, every other concern 20 |
| Monacos.DeductionSum | backend/routes/monacos.py:31-48 | at most 20 points per reason |
| Monacos.ScoreIsDeductions | backend/routes/monacos.py:31-50 | the score is 100 minus the reasons' points, lies in [30,100], and is 100 exactly when there is no reason, so `max(score, 0)` never binds |
| Monacos.ReasonsProperties | backend/routes/monacos.py:32-48 | at most four reasons, a concern present exactly when its threshold is crossed, in check order |
| Monacos.LevelProperties | backend/routes/monacos.py:52-57 | the level is the level of the score, and Hazardous exactly when all four concerns are raised |
| Monacos.SeverityOf | backend/routes/monacos.py:86-93 | critical exactly for the noise alert |
| Monacos.AlertsProperties | backend/routes/monacos.py:70-95 | at most three alerts; none for an unknown device; the alert of a kind present exactly when it fires; ids pairwise distinct |
| Monacos.AlertsInCheckOrder | backend/routes/monacos.py:86-95 | the alerts come in check order: PM2.5, then PM10, then noise |
| Monacos.AlertsImplyReasons | backend/routes/monacos.py:34-93 | every PM2.5, PM10 or noise alert is matched by the same concern among the health-score reasons |
| Monacos.LatestCache.constructor | backend/routes/monacos.py:9 | the cache starts empty |
| Monacos.LatestCache.IngestData | backend/routes/monacos.py:124-135 | the device's entry becomes the stamped snapshot; every other entry is unchanged |
| Monacos.LatestCache.GetLatest | backend/routes/monacos.py:14-18 | the cached snapshot, or 404 "No data for device" |
| Monacos.LatestCache.GetHealthScore | backend/routes/monacos.py:24-63 | 404 "No data for device" for an unknown device, otherwise `ReportOf` the cached snapshot |
| Monacos.LatestCache.GetAlerts | backend/routes/monacos.py:69-95 | the alerts `RouteAlertsOf` names, empty for an unknown device |
| Monacos.IngestThenRead | backend/routes/monacos.py:14-135 | after an ingest the device's latest entry is its snapshot and its score lies in [30,100] |
| DeviceStore.ReadingOf | backend/main.py:63-67 | the payload's timestamp when given, otherwise `now`; all fields copied |
| DeviceStore.DictOf | backend/main.py:44-67 | the stored dict holds the six numeric fields of the payload |
| DeviceStore.StoredReadingLacksAirQuality | backend/main.py:44-56 | a stored reading lacks `air_quality`, so the alert engine's field access fails, while the recommendation engine's fields are all present |
| DeviceStore.HistoryAppend | backend/main.py:73-74 | the history holds at most 60 readings, ends with the new one, and below 60 is the old history plus the new reading |
| DeviceStore.UnseenMembers | backend/main.py:125-129 | an alert is appended exactly when it is generated and its id is not yet logged |
| DeviceStore.MergeProperties | backend/main.py:123-131 | the old log is a prefix; the appended alerts are exactly those with unseen ids; every generated id ends up logged |
| DeviceStore.MergeIdempotent | backend/main.py:123-131 | merging the same alerts twice is merging them once |
| DeviceStore.SummaryOf | backend/main.py:142-155 | online exactly when fewer than 30 seconds passed since the last reading; id and last-seen copied |
| DeviceStore.SummariesUpTo | backend/main.py:142-155 | one summary per listed device, in order |
| DeviceStore.IngestConsistent | backend/main.py:63-74 | an ingest keeps the store consistent: keys listed once in arrival order, each history the last 60 arrivals, the latest the last arrival |
| DeviceStore.Store.constructor | backend/main.py:33-35 | empty dictionaries, consistent |
| DeviceStore.Store.Ingest | backend/main.py:63-80 | latest replaced, reading appended to a history cut to its last 60, a new device appended to the key order, the alert log unchanged |
| DeviceStore.Store.GetLatest | backend/main.py:86-91 | the stored reading, or 404 "Device offline" |
| DeviceStore.Store.GetHistory | backend/main.py:97-99 | the device's history, or the empty list |
| DeviceStore.Store.GetHealthScore | backend/main.py:105-110 | 404 "Device offline", or the health engine's report on the stored dict |
| DeviceStore.Store.GetRecommendations | backend/main.py:163-168 | 404 "Device offline", or the recommendation engine's list for the stored dict |
| DeviceStore.Store.GetAqi | backend/main.py:174-181 | 404 "Device offline", or the PM AQI of the stored PM2.5 and PM10 |
| DeviceStore.Store.GetAlerts | backend/main.py:116-131 | 404 with the log unchanged for an unknown device; otherwise the device's log becomes the merged log and is returned; nothing else changes |
| DeviceStore.Store.ListDevices | backend/main.py:137-157 | one summary per device, in insertion order, as many as there are devices |
| DeviceStore.IngestKeepsValid | backend/main.py:63-80 | an ingest keeps the store consistent and updates the latest reading |

## Left out

- Random reading generators: `generateSensorData`, `generateDemoExtremes`, `generateHistoricalData`
  and `generateDevices` (`src/lib/mockData.ts:80-171`, `296-321`, `375-394`). They draw on
  `Math.random`. `RefreshData` takes the normal and demo readings as parameters instead.
- The unrounded status in `generateSensorData`: the status comes from the raw value, while the
  stored value is rounded to one decimal. This lives inside the random generators.
- Free-text messages: texts with embedded numbers, such as template literals and f-strings, and
  the descriptions of recommendations and explanations. The model covers identities, titles,
  severities, priorities and the fixed messages, and carries the printed values in the datatypes.
- Tick-by-tick clocks: `Date.now()`, `new Date()` and `datetime.utcnow()` are parameters.
- Repeated clock reads:
  - The `monacos` alert route reads the clock twice per alert. The model uses one `stamp` for
    the id and one `now` for the timestamp per request.
  - Timezone-aware timestamps are not modelled.
  - Times are integers: milliseconds in the front end, microseconds in the backend.
- Floating point: readings are exact reals. IEEE rounding of the weighted score and of the
  interpolation is not modelled.
- Persistence and other I/O:
  - SQLite: `ensure_device_exists`, the `INSERT` of `ingest_data` and the seven-day history query
    of the `monacos` routes.
  - Network, FastAPI routing, pydantic validation, CORS and authentication.
- UI:
  - Rendering, animation and styles, including the missing style for the "Severe" AQI category.
  - The loading skeleton of the grid.
  - The provider's 30-second polling interval and effect scheduling. `RefreshData` models one
    refresh.
- DeviceStore.Store.GetAlerts:
  - It takes the generated alerts as a parameter, with ids.
  - As written, `main.py` calls the alert engine on a stored reading, which lacks `air_quality`,
    so the call raises a `KeyError`. `StoredReadingLacksAirQuality` proves this.
  - The engine's alerts also carry no `id`, so the merge could not read one.
  - The model therefore states the id-based merge of lines 123-131 on abstract alerts.
- DeviceStore.Store.Ingest: its contract states the whole new state but not the store invariant.
  `IngestConsistent` and `IngestKeepsValid` prove that invariant.
- DeviceStore.DictOf: the non-numeric fields of the stored dict are not modelled: `device_id`,
  `timestamp` and `location`.
