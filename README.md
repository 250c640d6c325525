# Advanced Vehicle Telematics System — a verified model of its core

This project models the two simulation engines of the Advanced Vehicle
Telematics System and its anomaly monitor, and proves properties of them.

- **The browser fleet simulator** (`app/hooks/useVehicleData.ts`, over the
  types of `app/types/vehicle.ts`). The hook has the state cells `vehicles`,
  `anomalies`, `systemStats`, `isRunning` and `isPaused`. It is the class
  `VehicleData.FleetSimulator`, with one `Tick` method per interval callback
  and methods for toggle, pause/resume and export. The model covers:
  - the sensor-reading and anomaly generators;
  - the first-match state classifier and the severity→priority rule;
  - the per-vehicle counters;
  - the 1000-entry anomaly buffer and the 10-entry newest-first event log;
  - the uptime text;
  - the vehicle-analytics query.

  Every `Math.random()` draw is a parameter, so a tick is deterministic.
- **The C++ per-reading pipeline** (`advanced_telematics.cpp`). It covers:
  - `AnomalyRecord`: the priority clamp and the severity and type labels.
  - `AdvancedAnalytics`: the order statistics, the 200-value trend series,
    `predictNextValue` and `detectSeasonalPattern`.
  - `AdvancedDataManager`, as the class `DataManager.AdvancedDataManager`:
    - the 200-reading windows;
    - the profile update, with its 1000-point route;
    - the range, fuel-leak, maintenance and geofence detectors;
    - `addEnhancedAnomaly`'s counters and priority queue;
    - the time-windowed vehicle-state rule;
    - `processSensorReading`, which chains these steps;
    - the synthetic reading generator, with its continuity clamps and
      fault scenarios.

  The class keeps ghost copies of everything it has been fed and has
  logged. Its invariant `Valid` ties each bounded window, trend series,
  route, counter and queue to that history: what it holds is the last
  200 (or 1000) items, a true mean, and an exact count.
- **The anomaly monitor** (`app/components/AnomalyMonitor.tsx`). This covers
  the filter predicate, the list of distinct types, the severity label and
  colour, and the count cards. Lemmas tie these to the hook's priority rule
  and to its analytics buckets.

Modules, one per file:

| module | file | role |
|---|---|---|
| `Windows` | `windows.dfy` | `LastN` (JavaScript `slice(-n)`), `Take` (`slice(0, n)`) and `Slide` (C++ push-then-drop-front) |
| `Text` | `text.dfy` | ASCII lower-casing, `includes`, `split(sep)[0]` and decimal rendering |
| `VehicleTypes` | `vehicle_types.dfy` | the records of `app/types/vehicle.ts` |
| `VehicleData` | `vehicle_data.dfy` | the hook |
| `AnomalyMonitor` | `anomaly_monitor.dfy` | the monitor component |
| `TelematicsTypes` | `telematics_types.dfy` | the C++ enums and records, and `duration_cast` truncation |
| `Analytics` | `analytics.dfy` | `AdvancedAnalytics` |
| `DataManager` | `data_manager.dfy` | `AdvancedDataManager` |

Numbers are exact `real`s. C++ times are `int` milliseconds, and
`duration_cast` to whole seconds, minutes or hours is division that
truncates toward zero (`TelematicsTypes.TruncDiv`).

Three behaviours of the code that the model keeps:
- Fault scenario 4 sets speed to −10, and scenario 10 sets fuel to the
  previous level minus 5, with no clamp; the model keeps both
  (`DataManager.SensorFailureScenarioNegativeSpeed`,
  `DataManager.FuelLeakScenarioGoesNegative`). So "speed and fuel are never
  negative" holds only without a scenario (`DataManager.ContinuityClamps`).
- The C++ first reading draws fuel from [5, 95), while the browser
  generator draws it from [10, 95) (`DataManager.FirstReadingBounds`,
  `VehicleData.GenerateSensorReading`).
- The C++ `MAINTENANCE` state is produced by the maintenance check and kept
  by the state rule; the browser classifier never produces it.

## Model

| member | source | states |
|---|---|---|
| Windows.LastN | app/hooks/useVehicleData.ts:210 | `slice(-n)`: the result has min(\|s\|, n) elements and is the suffix of that length |
| Windows.Take | app/hooks/useVehicleData.ts:253 | `slice(0, n)`: the result has min(\|s\|, n) elements and is the prefix of that length |
| Windows.LastNOfAppend | app/hooks/useVehicleData.ts:196-210 | trimming to the last n, appending, and trimming again equals appending to the untrimmed list and trimming once, so a capped buffer after any number of ticks is the last n of everything emitted |
| Windows.Slide | advanced_telematics.cpp:484-487 | push_back then erase-front keeps a window that is within its cap within it |
| Windows.SlideIsLastN | advanced_telematics.cpp:484-487 | push_back then erase-front on a window within its cap is the last `cap` elements of the window plus the new value, and stays within the cap |
| Windows.SlideHistory | advanced_telematics.cpp:666-669 | sliding the last `cap` of a history by one value gives the last `cap` of the extended history (FIFO, oldest dropped first) |
| Windows.PrependTake | app/hooks/useVehicleData.ts:247-254 | prepending an event to the first nine entries of a ten-entry log gives the first ten of the event followed by the full history |
| Text.ToLower | app/components/AnomalyMonitor.tsx:26-27 | lower-casing keeps the length and maps each character independently |
| Text.ToLowerIdempotent | app/components/AnomalyMonitor.tsx:26-27 | lower-casing an already lower-cased string changes nothing |
| Text.IncludesIffWindow | app/components/AnomalyMonitor.tsx:26-27 | `includes` holds exactly when the needle occurs at some position of the haystack |
| Text.IncludesEmpty | app/components/AnomalyMonitor.tsx:26-27 | every string includes the empty string |
| Text.FirstField | app/hooks/useVehicleData.ts:149 | `split(sep)[0]` is the longest prefix free of the separator, ending at the first separator or at the end |
| Text.NatToDecimal | app/components/AnomalyMonitor.tsx:28-29 | `toString` of a natural number is a non-empty string of digits with no leading zero |
| Text.IntToDecimal | app/components/AnomalyMonitor.tsx:28-29 | `toString` of an integer starts with '-' exactly when the integer is negative |
| Text.DecimalRoundTrip | app/components/AnomalyMonitor.tsx:28-29 | reading back the digits of a natural number gives the number |
| Text.IntToDecimalInjective | app/components/AnomalyMonitor.tsx:28-29 | two integers have the same decimal string exactly when they are equal, so the severity and vehicle filters compare numbers |
| TelematicsTypes.PriorityLevel | advanced_telematics.cpp:100-106 | every priority level lies in 1..5 |
| TelematicsTypes.PriorityOfLevel | advanced_telematics.cpp:100-106 | the cast from 1..5 to `AlertPriority` is the inverse of the level |
| TelematicsTypes.NewReading | advanced_telematics.cpp:130-137 | the nine-argument constructor sets its arguments (time, vehicle, speed, rpm, temperature, fuel, throttle, engine flag, latitude and longitude) and leaves the enhanced fields at their defaults (battery 12.0, all else zero or false) |
| TelematicsTypes.NewAnomalyRecord | advanced_telematics.cpp:180-186 | the record keeps its arguments, starts unacknowledged, and has priority clamp(severity, 1, 5): equal to the severity in 1..5, LOW below, EMERGENCY above |
| TelematicsTypes.SeverityString | advanced_telematics.cpp:192-201 | the label is "UNKNOWN" exactly when the severity is outside 1..5 |
| TelematicsTypes.SeverityStringInjective | advanced_telematics.cpp:192-201 | the five known severities have five different labels |
| TelematicsTypes.TypeString | advanced_telematics.cpp:203-222 | every anomaly type has a non-empty label other than "UNKNOWN" (the switch is total) |
| TelematicsTypes.TypeStringInjective | advanced_telematics.cpp:203-222 | different types have different labels |
| TelematicsTypes.TruncDiv | advanced_telematics.cpp:841-842 | `duration_cast` rounds toward zero: down for non-negative spans, up for negative ones |
| VehicleData.GenerateSensorReading | app/hooks/useVehicleData.ts:102-120 | with draws in [0,1): speed in [20,120), rpm in [800,6000), temperature in [80,95), fuel in [10,95), and the other documented bounds; the engine is on exactly when its draw exceeds 0.05 |
| VehicleData.ClassifyState | app/hooks/useVehicleData.ts:180-188 | first match: CRITICAL iff temp > 105 or speed > 150; WARNING iff not that and temp > 100 or speed > 130; OFFLINE iff neither and the engine is off; never MAINTENANCE |
| VehicleData.GeneratedStateIsNormalOrOffline | app/hooks/useVehicleData.ts:104-109 | a generated reading classifies as NORMAL or OFFLINE only, and OFFLINE exactly when the engine draw is at most 0.05 |
| VehicleData.PriorityOf | app/hooks/useVehicleData.ts:154 | CRITICAL iff severity ≥ 4, HIGH iff 3, MEDIUM iff 2, LOW iff ≤ 1; EMERGENCY never |
| VehicleData.Description | app/hooks/useVehicleData.ts:128-152 | a listed type gets its table description, an unlisted one "Unknown anomaly" |
| VehicleData.SensorName | app/hooks/useVehicleData.ts:149 | the sensor name is no longer than the type and contains no underscore |
| VehicleData.GenerateAnomaly | app/hooks/useVehicleData.ts:123-159 | the anomaly is well formed (severity 1..5, type from the list, priority from the severity, unacknowledged); value in [0,100), mlScore in [0,5), location present iff its draw exceeds 0.7 |
| VehicleData.EmittedUpTo | app/hooks/useVehicleData.ts:197-207 | the first i vehicles' rolls emit at most i anomalies, all well formed |
| VehicleData.EmitAnomalies | app/hooks/useVehicleData.ts:195-207 | the `forEach` loop pushes exactly the anomalies of the vehicles whose roll is below 0.05, in fleet order, and each bumps its own vehicle's counter once |
| VehicleData.BumpAnomalyCount | app/hooks/useVehicleData.ts:203-205 | the fleet keeps its length and order, only counters change, and vehicles with another id are unchanged |
| VehicleData.WithCounts | app/hooks/useVehicleData.ts:203-205 | the refreshed fleet with the batch's counts keeps its length |
| VehicleData.BumpIsOneMore | app/hooks/useVehicleData.ts:203-205 | one more anomaly raises exactly the counter of the vehicle with its id, by one |
| VehicleData.OfVehicle | app/hooks/useVehicleData.ts:410 | the filtered list is no longer than the whole and holds only that vehicle's anomalies |
| VehicleData.OfVehicleAppend | app/hooks/useVehicleData.ts:410 | filtering distributes over concatenation |
| VehicleData.OfVehicleMembers | app/hooks/useVehicleData.ts:410 | every anomaly of the filtered list comes from the input |
| VehicleData.RefreshVehicle | app/hooks/useVehicleData.ts:168-191 | the refreshed vehicle keeps its identity and counters and takes the new reading; maxSpeed is the larger of old and new; distance does not fall for a non-negative speed; avgSpeed lies between the old average and the new speed |
| VehicleData.Refreshed | app/hooks/useVehicleData.ts:167-192 | every vehicle is refreshed from its own draws and the fleet keeps its length and order |
| VehicleData.RefreshKeepsMaxSpeedMonotone | app/hooks/useVehicleData.ts:176 | over any number of ticks maxSpeed never falls, is at least every speed read, and is the starting maximum or one of those speeds |
| VehicleData.JsRemainder | app/hooks/useVehicleData.ts:218 | JavaScript `%` lies strictly between −b and b, is ≤ 0 for a negative dividend and ≥ 0 otherwise, and agrees with the mathematical remainder for non-negative dividends |
| VehicleData.JsRemainderNegation | app/hooks/useVehicleData.ts:218 | negating the dividend negates the remainder |
| VehicleData.UptimeHours | app/hooks/useVehicleData.ts:217 | for a non-negative elapsed time, the hours are the whole hours it contains |
| VehicleData.UptimeMinutes | app/hooks/useVehicleData.ts:218 | the minutes lie in 0..59 for a non-negative elapsed time and in −60..0 for a negative one |
| VehicleData.UptimeText | app/hooks/useVehicleData.ts:216-219 | the text ends in 'm' and starts with a minus sign exactly when the elapsed time is negative |
| VehicleData.UptimeSplit | app/hooks/useVehicleData.ts:216-218 | for a non-negative elapsed time, minutes lie in 0..59 and hours:minutes is the elapsed time rounded down to the minute |
| VehicleData.RefreshStats | app/hooks/useVehicleData.ts:214-229 | totalReadings grows by exactly the fleet size, the events and anomaly count are kept, the uptime is the elapsed time's text, and the gauges lie in their ranges |
| VehicleData.PushEvent | app/hooks/useVehicleData.ts:247-254 | the new event is at index 0, followed by the first min(\|log\|, 9) old events, so the log never exceeds ten |
| VehicleData.FindVehicle | app/hooks/useVehicleData.ts:409 | `find` returns nothing exactly when no vehicle has the id, and otherwise the first vehicle that has it |
| VehicleData.BucketsPartition | app/hooks/useVehicleData.ts:493-498 | for severities in 1..5 the four buckets add up to the number of anomalies |
| VehicleData.MockStats | app/hooks/useVehicleData.ts:475-485 | the placeholder statistics have min = base − 0.8·variance, max = base + 1.2·variance and p95 = base + 0.9·variance; with valid draws and non-negative variance, mean and median lie in [min, max] and the others in their documented ranges |
| VehicleData.VehicleAnalyticsOf | app/hooks/useVehicleData.ts:407-522 | an unknown id gets all-zero statistics, a zero summary and no predictions; a known one gets the severity buckets of its own anomalies and the three fixed predictions, and its speed range runs from its average speed − 16 to its average speed + 24 |
| VehicleData.CountAtLeast | app/hooks/useVehicleData.ts:493-494 | `filter(a => a.severity >= k).length` is at most the list's length; what it counts is in SummaryCountsOwnAnomalies |
| VehicleData.CountExactly | app/hooks/useVehicleData.ts:495-497 | `filter(a => a.severity === k).length` is at most the list's length |
| VehicleData.SummaryCountsOwnAnomalies | app/hooks/useVehicleData.ts:493-498 | for a known vehicle the summary counts each of its anomalies exactly once |
| VehicleData.SummaryIgnoresOtherVehicles | app/hooks/useVehicleData.ts:410 | anomalies of other vehicles do not change a vehicle's summary |
| VehicleData.ReportOf | app/hooks/useVehicleData.ts:365-384 | the report counts all vehicles and anomalies, and its recent anomalies are the last min(\|anomalies\|, 100) |
| VehicleData.ConnectedMessage | app/hooks/useVehicleData.ts:95 | the start-up message for the 20-vehicle fleet reads "20 vehicles connected" |
| VehicleData.InitialVehicle | app/hooks/useVehicleData.ts:67-79 | vehicle i has id i + 1, state NORMAL, and its random counters in their ranges |
| VehicleData.FleetSimulator.constructor | app/hooks/useVehicleData.ts:49-99 | twenty catalogue vehicles, no anomalies, running and not paused, zero readings, anomalies and rate, the initial gauges (health 98.5, memory 245.7, CPU 23.4), uptime "0h 0m", and the two start-up events |
| VehicleData.FleetSimulator.Tick | app/hooks/useVehicleData.ts:162-241 | nothing changes while stopped or paused; otherwise the fleet is refreshed and bumped per emitted anomaly, the buffer is the last 1000 of the old buffer plus the batch, totalReadings grows by the fleet size and totalAnomalies equals the buffer's length |
| VehicleData.FleetSimulator.RefreshSystemStats | app/hooks/useVehicleData.ts:214-229 | the stats become the refreshed stats; nothing else changes |
| VehicleData.FleetSimulator.ToggleSimulation | app/hooks/useVehicleData.ts:243-256 | running flips, and "Simulation stopped" or "started" (by the old flag) is pushed onto the event log |
| VehicleData.FleetSimulator.PauseResume | app/hooks/useVehicleData.ts:258-271 | paused flips, and "Simulation resumed" or "paused" (by the old flag) is pushed onto the event log |
| VehicleData.FleetSimulator.ExportData | app/hooks/useVehicleData.ts:273-405 | the report is built from the state before the call, and the export event is pushed onto the log |
| VehicleData.FleetSimulator.LogEvent | app/hooks/useVehicleData.ts:396-403 | the event log becomes the ten most recent events, newest first |
| AnomalyMonitor.FilterAnomalies | app/components/AnomalyMonitor.tsx:24-33 | the result is no longer than the input and every entry passes the filter |
| AnomalyMonitor.FilterIsSubsequence | app/components/AnomalyMonitor.tsx:24-33 | the filtered list is an order-preserving subsequence of the input |
| AnomalyMonitor.Matches | app/components/AnomalyMonitor.tsx:24-33 | the initial filters (empty search, every select on "all") match every anomaly; the full meaning is in FilterMembership |
| AnomalyMonitor.FilterMembership | app/components/AnomalyMonitor.tsx:24-32 | an anomaly is shown exactly when it is in the list and matches the search, severity, vehicle and type filters |
| AnomalyMonitor.NoFiltersShowEverything | app/components/AnomalyMonitor.tsx:18-32 | with the initial filters (empty search, "all" three times) the list is shown unchanged |
| AnomalyMonitor.SeverityFilterIsExact | app/components/AnomalyMonitor.tsx:28 | selecting a severity's string shows only anomalies of that severity |
| AnomalyMonitor.AnomalyTypesOf | app/components/AnomalyMonitor.tsx:36 | the type list holds each type present in the anomalies exactly once and nothing else |
| AnomalyMonitor.AnomalyTypesInFirstAppearanceOrder | app/components/AnomalyMonitor.tsx:36 | the type list is in order of first appearance: an earlier entry occurs before every occurrence of a later one |
| AnomalyMonitor.SeverityLabel | app/components/AnomalyMonitor.tsx:45-50 | the label is one of CRITICAL, HIGH, MEDIUM, LOW |
| AnomalyMonitor.SeverityColor | app/components/AnomalyMonitor.tsx:38-43 | the colour is one of the four badge colours |
| AnomalyMonitor.LabelAgreesWithPriority | app/components/AnomalyMonitor.tsx:45-50 | for every integer severity the monitor's label is the hook's priority name |
| AnomalyMonitor.ColorFollowsLabel | app/components/AnomalyMonitor.tsx:38-50 | two severities share a colour exactly when they share a label |
| AnomalyMonitor.SeverityCards | app/components/AnomalyMonitor.tsx:152-188 | the cards count #(sev ≥ 4), #(sev = 3), #(sev = 2) and the list length |
| AnomalyMonitor.CardsWithinTotal | app/components/AnomalyMonitor.tsx:152-188 | the three severity cards sum to at most the total, and with the LOW count to exactly the total when severities lie in 1..5 |
| AnomalyMonitor.CardsMatchVehicleSummary | app/components/AnomalyMonitor.tsx:152-176 | over one vehicle's anomalies the cards equal the hook's critical, high and medium buckets |
| Analytics.Insert | advanced_telematics.cpp:433-434 | inserting into a sorted sequence keeps it sorted and adds exactly the one element |
| Analytics.SortedCopy | advanced_telematics.cpp:433-434 | the sorted copy is sorted and is a permutation of the data |
| Analytics.SortedUnique | advanced_telematics.cpp:433-434 | two sorted permutations of the same data are equal, so the order statistics do not depend on the sort |
| Analytics.P95Index | advanced_telematics.cpp:445 | the 95th-percentile index is ⌊0.95·(n − 1)⌋ and lies in [0, n − 1] |
| Analytics.SumOf | advanced_telematics.cpp:439 | the accumulation loop computes the sum |
| Analytics.CalculateStatistics | advanced_telematics.cpp:429-446 | the method computes the order statistics of the data (zero for empty data) |
| Analytics.StatisticsOfEmpty | advanced_telematics.cpp:430-431 | empty data gives all-zero statistics |
| Analytics.SortedBounds | advanced_telematics.cpp:437-438 | the first and last sorted elements bound all the data and belong to it |
| Analytics.MiddleBounds | advanced_telematics.cpp:441-446 | the median and the 95th percentile of a sorted sequence lie between its ends |
| Analytics.PercentileInData | advanced_telematics.cpp:445-446 | the 95th percentile is an element of the data |
| Analytics.SumBounds | advanced_telematics.cpp:439 | a sum of n values in [lo, hi] lies in [n·lo, n·hi] |
| Analytics.MeanBounds | advanced_telematics.cpp:439 | the mean of values in [lo, hi] lies in [lo, hi] |
| Analytics.OrderStatisticsBounds | advanced_telematics.cpp:437-446 | for a sorted permutation, min and max bound the data and belong to it, and median, mean and p95 lie between them |
| Analytics.StatisticsOf | advanced_telematics.cpp:429-446 | empty data gives all-zero statistics; for other data the meaning is in StatisticsBounds and StatisticsOrderIndependent |
| Analytics.StatisticsBounds | advanced_telematics.cpp:429-446 | min is the smallest element and max the largest; min ≤ median ≤ max, min ≤ mean ≤ max, and p95 is an element |
| Analytics.StatisticsOrderIndependent | advanced_telematics.cpp:433-446 | permuting the data leaves min, max, median and p95 unchanged |
| Analytics.PredictNextValue | advanced_telematics.cpp:503-509 | zero for fewer than three points, otherwise the last value plus the last step |
| Analytics.PredictExtendsProgression | advanced_telematics.cpp:503-509 | on an arithmetic progression the prediction is its next term |
| Analytics.PhaseStep | advanced_telematics.cpp:516-520 | one more datum adds to the sum and count of its own phase i mod period only |
| Analytics.AccumulatePhases | advanced_telematics.cpp:512-520 | the accumulation loop leaves, per phase, the sum and count of the data at that phase |
| Analytics.PhaseMean | advanced_telematics.cpp:511-529 | a phase without samples has mean 0, and otherwise mean × count is the phase's sum |
| Analytics.DetectSeasonalPattern | advanced_telematics.cpp:512-529 | the result has `period` entries, and entry p is the mean of the data at indices ≡ p (mod period), or 0 if there are none |
| Analytics.PhaseSumOfEmptyPhase | advanced_telematics.cpp:522-526 | a phase with no data has sum 0, so its entry is 0 |
| Analytics.PhaseCountPositive | advanced_telematics.cpp:516-526 | a phase has data exactly when it is below the data length |
| Analytics.PhaseOfConstant | advanced_telematics.cpp:516-526 | on constant data every non-empty phase averages to that constant |
| Analytics.Series | advanced_telematics.cpp:489-493 | the series of a metric has one value per reading, the reading's field |
| Analytics.AdvancedAnalytics.constructor | advanced_telematics.cpp:408-414 | all series start empty and consistent with an empty history |
| Analytics.AdvancedAnalytics.UpdateTrends | advanced_telematics.cpp:481-494 | each of the five series of the vehicle slides by the reading's value, and the invariant (each series is the last 200 of its metric's history) is kept |
| Analytics.AdvancedAnalytics.TrendWindowProperties | advanced_telematics.cpp:482-487 | every series is at most 200 long, has min(history, 200) values, and is the suffix of its metric's history |
| Analytics.AdvancedAnalytics.GetStats | advanced_telematics.cpp:496-500 | all zero for an empty series; otherwise min and max bound the series and belong to it, p95 is a value of it, and median and mean lie between min and max |
| Analytics.TrendStep | advanced_telematics.cpp:484-487 | sliding the last 200 of a metric's history by a new value gives the last 200 of the extended history |
| Analytics.TracksStep | advanced_telematics.cpp:484-489 | one update keeps a series map equal to the last 200 of each vehicle's history |
| Analytics.AllTracksStep | advanced_telematics.cpp:489-493 | one update keeps all five series maps tracking their histories |
| DataManager.NewProfile | advanced_telematics.cpp:245-251 | a new profile is NORMAL, seen now, last serviced 30 days ago, with no anomalies, no route and no speed samples |
| DataManager.InitialProfiles | advanced_telematics.cpp:639-641 | the first n profiles are exactly ids 1..n |
| DataManager.CatalogProfile | advanced_telematics.cpp:629-640 | profile i has id i and the i-th catalogue model |
| DataManager.InitializeVehicleProfiles | advanced_telematics.cpp:628-642 | the loop builds the twenty catalogue profiles |
| DataManager.InitialProfilesEntries | advanced_telematics.cpp:639-641 | entry i of the initial map is the i-th catalogue profile |
| DataManager.InitialProfilesFresh | advanced_telematics.cpp:245-251 | every initial profile has no anomalies and is consistent with an empty history |
| DataManager.Positions | advanced_telematics.cpp:722 | the route has one position per reading |
| DataManager.NewProfileTracks | advanced_telematics.cpp:245-251 | a new profile agrees with an empty reading history |
| DataManager.UpdatedProfile | advanced_telematics.cpp:710-745 | identity, state, count and service fields are kept; last contact is the reading's time; one more speed sample; the maximum covers the reading; the route ends at the reading's position; distance does not fall for a non-negative leg; at most one more harsh event |
| DataManager.ProfileStep | advanced_telematics.cpp:710-745 | one update keeps the profile's running maximum, speed sum, sample count, mean, harsh count and last 1000 positions equal to those of its history |
| DataManager.MaxSpeedIsMaximum | advanced_telematics.cpp:728 | the running maximum (from 0) bounds every speed and is 0 or one of them |
| DataManager.SpeedSumAtMostMax | advanced_telematics.cpp:736-739 | the speed sum is at most the count times the maximum |
| DataManager.AverageAtMostMaximum | advanced_telematics.cpp:728-739 | the average speed never exceeds the recorded maximum |
| DataManager.HarshCountStep | advanced_telematics.cpp:742-744 | the harsh count rises by one exactly when \|acceleration\| > 4, and otherwise stays |
| DataManager.RouteWindow | advanced_telematics.cpp:722-725 | the route holds the last min(history, 1000) positions, oldest first |
| DataManager.DistanceMonotone | advanced_telematics.cpp:715-720 | distance never falls for a non-negative leg, and the first reading adds nothing |
| DataManager.FuelDropRate | advanced_telematics.cpp:835-848 | zero with fewer than ten readings, and non-zero only when at least a minute separates the tenth-newest reading from the newest |
| DataManager.FuelDropRatePositive | advanced_telematics.cpp:835-848 | the rate is positive exactly when there are at least 10 readings, at least one whole minute between the tenth-newest and the newest, and the fuel fell |
| DataManager.FuelDropRateOfWindow | advanced_telematics.cpp:835-848 | the rate over the 200-reading window equals the rate over the full history |
| DataManager.RangeDetections | advanced_telematics.cpp:768-827 | the eight rules report at most eight detections |
| DataManager.RangeRules | advanced_telematics.cpp:768-827 | each of the eight rules reports exactly when its threshold holds |
| DataManager.SpeedRuleExact | advanced_telematics.cpp:768-772 | speed is reported iff speed > 200 or < −5 |
| DataManager.RpmRuleExact | advanced_telematics.cpp:774-778 | rpm is reported iff rpm > 8000, or rpm < 400 with the engine on and speed > 10 |
| DataManager.TempRuleExact | advanced_telematics.cpp:780-784 | temperature is reported iff it exceeds 110 |
| DataManager.AccelRuleExact | advanced_telematics.cpp:787-796 | acceleration is reported iff \|acceleration\| > 6 |
| DataManager.OilRuleExact | advanced_telematics.cpp:799-803 | oil is reported iff pressure < 1 with the engine on |
| DataManager.BatteryRuleExact | advanced_telematics.cpp:806-810 | the battery is reported iff voltage < 11 or > 15 |
| DataManager.FuelRuleExact | advanced_telematics.cpp:813-820 | a fuel leak is reported iff the window holds at least 10 readings and the drop rate exceeds 2 |
| DataManager.MlRuleExact | advanced_telematics.cpp:823-827 | the ML rule reports iff the score exceeds 3 |
| DataManager.RangeMembership | advanced_telematics.cpp:760-827 | a detection is reported exactly when one of the eight rules fires with it |
| DataManager.AccelAlarmKind | advanced_telematics.cpp:787-796 | positive acceleration is HARSH_ACCELERATION, negative is HARSH_BRAKING, severity 3 |
| DataManager.RangeDetectionsShape | advanced_telematics.cpp:768-827 | at most eight detections, each of severity 3..5 with no location |
| DataManager.GeofenceDetections | advanced_telematics.cpp:747-758 | one GEOFENCE_VIOLATION of severity 4 per restricted zone containing the reading, named after it |
| DataManager.MaintenanceDue | advanced_telematics.cpp:854-858 | service is due exactly when the distance exceeds the interval or at least 2161 hours have passed since the last service, which is what "more than 2160 whole hours" means under truncation |
| DataManager.NewProfileServiceDue | advanced_telematics.cpp:854-858 | a new profile within its distance falls due exactly 1441 hours after creation (30 days already elapsed, "more than 90 whole days") |
| DataManager.MaintenanceCheck | advanced_telematics.cpp:850-865 | at most one report, only for a vehicle with a profile, of kind MAINTENANCE_REQUIRED and severity 2 |
| DataManager.MaintenanceIgnoresCounts | advanced_telematics.cpp:854-858 | anomaly counts do not affect whether maintenance is due |
| DataManager.MaintenanceStep | advanced_telematics.cpp:850-865 | the check keeps the set of profiled vehicles |
| DataManager.DetectionBumps | advanced_telematics.cpp:850-865 | after n range reports the check bumps the count once more and sets MAINTENANCE when due, and otherwise changes nothing |
| DataManager.ToRecords | advanced_telematics.cpp:867-872 | one record per detection, in order |
| DataManager.ToRecord | advanced_telematics.cpp:871 | the record carries the vehicle, time and severity of its detection |
| DataManager.RecordsOfMembership | advanced_telematics.cpp:906-907 | a vehicle's records are exactly the logged records with its id |
| DataManager.UrgentMembership | advanced_telematics.cpp:875-877 | (severity, vehicle) is in the priority queue exactly when an anomaly with that severity ≥ 4 and vehicle was added |
| DataManager.CountRecentPositive | advanced_telematics.cpp:906-915 | the recent count for a severity is positive exactly when some record of it is at most 5 whole minutes old |
| DataManager.NextVehicleState | advanced_telematics.cpp:917-924 | MAINTENANCE only when the vehicle was already in it; OFFLINE exactly when at least 31 seconds have passed since last contact |
| DataManager.VehicleStateRule | advanced_telematics.cpp:899-925 | OFFLINE iff last seen more than 30 whole seconds ago; otherwise CRITICAL iff a recent severity-5 record, else WARNING iff more than two recent severity-4 records, else MAINTENANCE kept and NORMAL otherwise |
| DataManager.StaleAfterThirtyOneSeconds | advanced_telematics.cpp:922-924 | with whole-second truncation, "more than 30 s" means at least 31 000 ms |
| DataManager.CountRecentAnomalies | advanced_telematics.cpp:903-915 | the loop counts the recent severity-5 and severity-4 records |
| DataManager.StateRefreshed | advanced_telematics.cpp:899-925 | the state update touches only the given vehicle's state, keeping its last-seen time and counters |
| DataManager.BumpedBy | advanced_telematics.cpp:879-881 | bumping counts keeps the set of profiled vehicles |
| DataManager.WithState | advanced_telematics.cpp:863 | setting a state keeps the set of profiled vehicles |
| DataManager.UpdateIfPresent | advanced_telematics.cpp:661-663 | the profile update keeps the set of profiled vehicles |
| DataManager.UpdateKeepsOthers | advanced_telematics.cpp:710-745 | the profile update leaves every other vehicle's profile unchanged |
| DataManager.DetectionKeepsOthers | advanced_telematics.cpp:760-897 | detecting for one vehicle leaves every other vehicle's profile unchanged |
| DataManager.StateAfterDetection | advanced_telematics.cpp:850-865 | after detection the vehicle's state is MAINTENANCE if due and unchanged otherwise, and its last-seen time is kept |
| DataManager.ReportOutcome | advanced_telematics.cpp:680-692 | detection then state update changes only the reading's vehicle, whose new state is the state rule applied after the maintenance check, whose count grows by the range reports, one for a due service and the geofence reports, and whose other fields are kept |
| DataManager.ProcessedProfile | advanced_telematics.cpp:653-745 | after a reading the vehicle's profile is its updated profile with the new count and state: distance grows by the leg once a route exists, last contact is the reading's time, and make, plate, service date and interval are kept |
| DataManager.WindowsStep | advanced_telematics.cpp:666-669 | one push keeps every reading window equal to the last 200 of its vehicle's history |
| DataManager.HistoryStep | advanced_telematics.cpp:660-663 | one reading keeps every profile consistent with its vehicle's history |
| DataManager.RecordsStep | advanced_telematics.cpp:872 | one added anomaly keeps each vehicle's record list equal to its part of the log |
| DataManager.CountsStep | advanced_telematics.cpp:879-881 | one added anomaly keeps each profile's count equal to its records in the log |
| DataManager.UrgentStep | advanced_telematics.cpp:875-877 | the queue gains the pair exactly when severity ≥ 4 |
| DataManager.InitialBooks | advanced_telematics.cpp:628-642 | fresh profiles with empty maps, log and queue satisfy the bookkeeping invariant |
| DataManager.AddStep | advanced_telematics.cpp:867-881 | one added anomaly keeps the bookkeeping invariant |
| DataManager.StateStep | advanced_telematics.cpp:917-924 | a state change keeps the bookkeeping invariant |
| DataManager.SyntheticReading | advanced_telematics.cpp:1039-1102 | the reading is for the given vehicle at the given time |
| DataManager.ContinuedDraft | advanced_telematics.cpp:1056-1083 | the engine is on and brake, oil and battery are the draws; without a previous reading the odometer is 0 and speed and fuel are the draws; with one, speed, rpm and temperature are ≥ 0, fuel is in [0, 100] and the odometer does not go back |
| DataManager.ApplyScenario | advanced_telematics.cpp:1105-1150 | a scenario outside 1..10 changes nothing, and no scenario touches throttle, position or odometer |
| DataManager.BrakingScenarioDraws | advanced_telematics.cpp:1133-1137 | harsh braking sets the deceleration and the brake pressure from two independent draws, and turns ABS on |
| DataManager.ContinuityClamps | advanced_telematics.cpp:1057-1070 | with a previous reading and no scenario: speed, rpm and temperature are ≥ 0, fuel is clamp(previous − 0.05, 0, 100), acceleration is the speed change in m/s and the odometer does not go back |
| DataManager.Clamp01 | advanced_telematics.cpp:1064 | the clamp lands in [0, 100] and leaves values inside unchanged |
| DataManager.FirstReadingBounds | advanced_telematics.cpp:1040-1054 | a first reading without scenario has its draws' ranges (speed [20,120), rpm [800,6000), temperature [80,95), fuel [5,95), battery, oil), engine on, odometer 0, safety systems off |
| DataManager.ScenarioValues | advanced_telematics.cpp:1110-1143 | each fault scenario 1..9 forces its documented value |
| DataManager.ScenariosAreDetected | advanced_telematics.cpp:1110-1143 | each forced value of scenarios 1-4 and 6-9 trips its range rule (and 6 and 7 give the right harsh kind) |
| DataManager.FuelLeakScenarioGoesNegative | advanced_telematics.cpp:1144-1148 | scenario 10 after a reading below 5 % fuel gives negative fuel |
| DataManager.SensorFailureScenarioNegativeSpeed | advanced_telematics.cpp:1120-1122 | scenario 4 gives speed −10 whatever the window |
| DataManager.SyntheticUsesNewestOnly | advanced_telematics.cpp:1057-1058 | only the newest reading of the window affects the generated reading |
| DataManager.AdvancedDataManager.constructor | advanced_telematics.cpp:578-595 | twenty catalogue profiles; empty windows, records and queue; zero counters; the invariant holds |
| DataManager.AdvancedDataManager.AddEnhancedAnomaly | advanced_telematics.cpp:867-881 | the record is appended to its vehicle's list, the total rises by one, the queue gains (severity, vehicle) only for severity ≥ 4, and only that vehicle's count rises by one |
| DataManager.AdvancedDataManager.RecordDetections | advanced_telematics.cpp:760-827 | each detection is added in order; the vehicle's count rises by their number |
| DataManager.AdvancedDataManager.UpdateVehicleProfile | advanced_telematics.cpp:710-745 | the vehicle's profile is updated from the reading and nothing else changes |
| DataManager.AdvancedDataManager.CheckMaintenanceRequirements | advanced_telematics.cpp:850-865 | when due, one MAINTENANCE_REQUIRED record is added and the state becomes MAINTENANCE; otherwise nothing changes |
| DataManager.AdvancedDataManager.DetectEnhancedAnomalies | advanced_telematics.cpp:760-833 | the range reports and then the maintenance report are added, and the result is true exactly when a range rule fired |
| DataManager.AdvancedDataManager.CheckGeofenceViolations | advanced_telematics.cpp:747-758 | one record per restricted zone containing the reading; the vehicle's count rises by their number |
| DataManager.AdvancedDataManager.UpdateVehicleState | advanced_telematics.cpp:899-925 | the vehicle's state becomes the state rule over its logged records; nothing else changes |
| DataManager.AdvancedDataManager.IngestReading | advanced_telematics.cpp:660-669 | the profile is updated and the reading is slid into its vehicle's 200-reading window |
| DataManager.AdvancedDataManager.UpdateAnalytics | advanced_telematics.cpp:672 | the trend series follow the same history as the windows |
| DataManager.AdvancedDataManager.RecordReadingAnomalies | advanced_telematics.cpp:680-684 | range, maintenance and geofence reports are added in call order, and the counts rise accordingly |
| DataManager.AdvancedDataManager.ReportReading | advanced_telematics.cpp:680-692 | the reading's reports are logged, the profile map becomes `ReportedProfiles` of the old one (range counts, maintenance check, geofence counts, then the state rule over the new log), so only its vehicle's profile changes, and its state follows the state rule after the maintenance check |
| DataManager.AdvancedDataManager.ProcessSensorReading | advanced_telematics.cpp:653-707 | one more reading is counted and slid into its window; its reports are logged; the profile map becomes `ReportedProfiles` of the updated profiles, so only its vehicle's profile changes, with the state rule applied to a last-seen time equal to the reading's |
| DataManager.AdvancedDataManager.GenerateEnhancedSyntheticReading | advanced_telematics.cpp:1039-1102 | the reading is for the given vehicle at the given time |
| DataManager.AdvancedDataManager.GeneratorContinuesFromLastReading | advanced_telematics.cpp:1057-1058 | the generator continues from the newest reading fed for the vehicle |

## Left out

- React scheduling (`useState`, `useEffect`, `setInterval`, clean-up) is left out. `Tick` is one interval callback over the current fleet, and the per-anomaly counter updates apply after the refresh, in queue order. The analytics query is a function of the current vehicles and anomalies.
- Randomness is left out: every `Math.random()`, `std::uniform_real_distribution`, `std::normal_distribution` and `std::bernoulli_distribution` draw is a parameter. The normal draws are unconstrained reals.
- The clock is left out as well. Each step takes one `now` for the whole call. Dates and `toLocaleTimeString` are opaque strings.
- Export I/O is left out: Blob, URL and anchor downloads, the CSV text with its unescaped quotes, `JSON.stringify` and `toFixed`. The exported report is modelled as a record.
- Haversine distance, `Geofence::isInside` and the location continuity trigonometry are left out. The model takes these as parameters instead: the leg distance, the names of the restricted zones that contain the reading, and the next position `nextLat`/`nextLon` of a continued reading (which stands for the bearing draw and the trigonometry).
- `MLAnomalyDetector` is left out (`trainModel`, the Mahalanobis score). The score is a parameter.
- Standard deviation, coefficient of variation, outlier count and trend slope in `calculateStatistics` are left out. They need square roots and floating-point truncation; `Analytics.Statistics` keeps only min, max, mean, median and p95.
- Analytics.P95Index: `static_cast<size_t>(0.95 * (n - 1))` is modelled as exact ⌊95·(n − 1)/100⌋. Double rounding is not modelled.
- The mutex, atomics, simulation thread and command loop are left out, as is all file logging, console printing and `formatTimestamp`.
- `trainModel`'s periodic call in `processSensorReading` is left out (with the detector), and so is the performance log.
- `avgFuelEfficiency` and `maintenance_interval_km` are carried but never change. The code never updates them either.
- Analytics.AdvancedAnalytics.GetStats and the other lookups through `operator[]` do not model the empty entry that `operator[]` inserts. That entry is never observed; a missing key reads as an empty series.
- DataManager.AdvancedDataManager.CheckMaintenanceRequirements: for a vehicle without a profile, the model skips the check. In the code, `operator[]` would need a default `VehicleProfile`, and that type has none.
- DataManager.AdvancedDataManager.AddEnhancedAnomaly models the priority queue as a multiset of (severity, vehicle) pairs. Its pop order is not modelled; the code never pops it.
- Analytics.DetectSeasonalPattern requires `period > 0`. The code's `period` defaults to 24. Its behaviour is undefined for 0 (remainder by zero) and for negative periods (a vector of negative size).
- DataManager.CountRecentPositive and DataManager.VehicleStateRule: "recent" is "at most 5 whole minutes" under truncation, which means under 6 minutes of elapsed time. The model follows the code in this.
- Text.ToLower lower-cases ASCII letters only. Unicode case mapping is not modelled.
- The Python analysis script and the presentation components are not part of this model: the analytics panel, real-time chart, dashboard, map, controls and page.
