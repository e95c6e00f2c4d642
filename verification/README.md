# Substation dashboard core in Dafny

This project models the logic inside the React dashboard of a substation monitoring front end.
It is a verification model; none of it is compiled into the front end. The model covers these components:

- **Telemetry chart.** Its mock ML and backend service scores the last ten samples for
  volatility. It also generates a historical backfill and a live stream that revert to a target
  value. The component slides a fixed-length window over the stream and re-scores it every eighth
  length. It keeps at most one live interval, maps values to canvas coordinates, picks the trend
  colour and computes the header's change figures.
- **Alerts panel.** Acknowledging alerts by id, splitting the list into active and acknowledged
  alerts, the header badge, the "All Clear" placeholder and the "5m ago" label.
- **Real-time parameters panel.** Four rolling series of 20 readings and their bar heights.
- **System status overview.** The clamped health and data-quality walk, the text-valued quick
  statistics re-parsed on every tick, and the colour and icon lookups.
- **Asset metrics strip.** The fleet refresh, the select/deselect toggle, and the tile label and
  number formatting.
- **Equipment monitor.** The random walk over six metric keys, the camelCase row captions and the
  unit-suffix rules.
- **Asset health panel.** The clamped health walk, the badge and bar colours and the rounded
  percentage.

`Math.random()`, `Math.sin(...)` and `Date.now()` become parameters of the model. Random draws
are reals in [0, 1), sines are reals in [-1, 1], and the clock is an `int` of milliseconds. React
state updates and effects become pure functions from one state to the next. The interval and
stream discipline of the telemetry chart is a state machine (`Controller`). Two theorems cover
every sequence of events. `Controller.ReachableAsWritten` covers the component as written: at
most one interval is ever live. `Controller.Reachable` covers the corrected component, which also
drops a backfill that resolves after unmount, so nothing streams once the panel is gone. JavaScript numbers are exact `real`s. A value JavaScript
would make `NaN` is an `Option.None` or an explicit `NaN` constructor.

The modules are:

- `Wrappers` and `Numeric` hold shared definitions: clamp, round, min/max, sums and population
  variance.
- `Text` holds the string functions: camelCase spacing, trimming, substring search, integer
  rendering, the `parseFloat` prefix reader, and `toFixed(1)`.
- `Palette` holds the status colour lookups.
- The telemetry chart is split over `Telemetry`, `Anomaly`, `Generator`, `Window`, `Chart` and
  `Controller`.
- Each remaining panel has its own module: `Alerts`, `RealTime`, `SystemStatus`, `AssetMetrics`,
  `Equipment` and `AssetHealth`.

## Model

| member | source | states |
|---|---|---|
| Telemetry.MetricByKey | frontend/src/Pagelayout/Dashboard/TimeSeriesChart.jsx:40-47 | a metric key resolves to the one metric carrying that key and to nothing else; an unknown key resolves to none |
| Telemetry.RangeByKey | frontend/src/Pagelayout/Dashboard/TimeSeriesChart.jsx:70-75 | a time-range key resolves to the one range carrying it; an unknown key resolves to none |
| Telemetry.Config | frontend/src/Pagelayout/Dashboard/TimeSeriesChart.jsx:25-30 | every metric has a positive variation and a positive streaming interval |
| Telemetry.ValuesSuffix | frontend/src/Pagelayout/Dashboard/TimeSeriesChart.jsx:7 | projecting values commutes with dropping a prefix of the samples |
| Anomaly.Recent | frontend/src/Pagelayout/Dashboard/TimeSeriesChart.jsx:7 | the scored slice is the last min(10, n) samples of the window |
| Anomaly.Volatile | frontend/src/Pagelayout/Dashboard/TimeSeriesChart.jsx:12 | the variance test can only pass on a window of at least two samples |
| Numeric.Variance | frontend/src/Pagelayout/Dashboard/TimeSeriesChart.jsx:8-9 | the population variance exists exactly for a non-empty list and is never negative |
| Numeric.ConstantVarianceZero | frontend/src/Pagelayout/Dashboard/TimeSeriesChart.jsx:8-9 | a constant list has variance 0 |
| Anomaly.Predict | frontend/src/Pagelayout/Dashboard/TimeSeriesChart.jsx:6-21 | anomalous iff the recent variance exceeds 100 or the alarm draw is below 0.03; confidence in [20, 100]; severity low iff not anomalous, high iff anomalous with raw confidence above 0.7; message "Volatility Alert" iff anomalous |
| Anomaly.OnlyRecentMatter | frontend/src/Pagelayout/Dashboard/TimeSeriesChart.jsx:7 | samples older than the last ten never change the prediction |
| Anomaly.CalmWindow | frontend/src/Pagelayout/Dashboard/TimeSeriesChart.jsx:7-12 | when the last ten values are constant, only the 3% false-alarm draw can raise an anomaly |
| Anomaly.ShortWindowCalm | frontend/src/Pagelayout/Dashboard/TimeSeriesChart.jsx:7-12 | a window of at most one sample is anomalous only through the false-alarm draw |
| Anomaly.SeverityFollowsConfidence | frontend/src/Pagelayout/Dashboard/TimeSeriesChart.jsx:13-19 | an anomalous prediction reported at 71% or more is high, and one at 69% or less is medium |
| Anomaly.SwingStatistics | frontend/src/Pagelayout/Dashboard/TimeSeriesChart.jsx:8-9 | n alternating swings of ±100 have length 2n, sum 0 and squared deviation 20000·n |
| Anomaly.SwingVariance | frontend/src/Pagelayout/Dashboard/TimeSeriesChart.jsx:8-9 | any non-empty run of ±100 swings has variance 10000 |
| Anomaly.AlternatingSwingAlarms | frontend/src/Pagelayout/Dashboard/TimeSeriesChart.jsx:12 | a window of up to ten values alternating by ±100 is always flagged, whatever the draws |
| Generator.StreamStaysNear | frontend/src/Pagelayout/Dashboard/TimeSeriesChart.jsx:49-55 | one live step keeps the value within 7v/9 of the target when the previous value was |
| Generator.StreamValue | frontend/src/Pagelayout/Dashboard/TimeSeriesChart.jsx:50-54 | without sine and noise (sine 0, draw 0.5) the deviation from the target shrinks to a tenth of the previous one |
| Generator.StreamStart | frontend/src/Pagelayout/Dashboard/TimeSeriesChart.jsx:32-37 | the live generator starts exactly at the target, which lies inside its bound |
| Generator.BackfillStaysNear | frontend/src/Pagelayout/Dashboard/TimeSeriesChart.jsx:96-102 | one backfill step keeps the value within 14v/19 of the target when the previous value was |
| Generator.BackfillValue | frontend/src/Pagelayout/Dashboard/TimeSeriesChart.jsx:97-101 | without sine and noise (sine 0, draw 0.5) the deviation from the target shrinks to a twentieth of the previous one |
| Generator.TrendAsWritten | frontend/src/Pagelayout/Dashboard/TimeSeriesChart.jsx:55-61 | as written, the comparison runs after `lastValue` is overwritten, so the trend is always down |
| Generator.TrendAsWrittenMissesRise | frontend/src/Pagelayout/Dashboard/TimeSeriesChart.jsx:101-109 | for every rise, the trend as written differs from the intended one; 230 followed by 231 is one case |
| Generator.TrendOf | frontend/src/Pagelayout/Dashboard/TimeSeriesChart.jsx:61 | the corrected trend is up iff the new value exceeds the previous one |
| Generator.StreamPoint | frontend/src/Pagelayout/Dashboard/TimeSeriesChart.jsx:57-62 | corrected (Findings row 2): a streamed sample is real-time, stamped `now`, carries the new value, and is up iff it rose |
| Generator.Spacing | frontend/src/Pagelayout/Dashboard/TimeSeriesChart.jsx:79-81 | the corrected spacing is positive, and N spacings cover exactly the range's span |
| Generator.TimestampAsWrittenOrdered | frontend/src/Pagelayout/Dashboard/TimeSeriesChart.jsx:94 | as written, timestamps still increase and end at `now` once the clock is past the range span |
| Generator.IntervalAsWritten | frontend/src/Pagelayout/Dashboard/TimeSeriesChart.jsx:79-81 | as written, N spacings add up to now − range, the whole clock reading less the span, and the spacing is positive once the clock is past the span |
| Generator.TimestampAsWritten | frontend/src/Pagelayout/Dashboard/TimeSeriesChart.jsx:94 | as written, the last point is still stamped exactly `now` |
| Generator.CountbackOrdered | frontend/src/Pagelayout/Dashboard/TimeSeriesChart.jsx:94 | counting back more intervals from the same end gives an earlier time |
| Generator.TimestampAsWrittenLeavesRange | frontend/src/Pagelayout/Dashboard/TimeSeriesChart.jsx:79-81 | with a present-day clock the first one-hour point lies before the hour starts |
| Generator.Backfill | frontend/src/Pagelayout/Dashboard/TimeSeriesChart.jsx:67-114 | corrected (Findings rows 1 and 2): an unknown metric fails and nothing else does; an unknown range yields no points; otherwise the point count matches the range, the points are spaced by range/N up to `now`, stay within 14v/19 of the target, are historical, and carry the corrected trend; every value is the backfill step from the value before it (the target for the first point), driven by that point's sine and draw |
| Generator.BackfillSeries | frontend/src/Pagelayout/Dashboard/TimeSeriesChart.jsx:93-111 | the loop yields a backfill of the range (spacing, bound, trend) whose values follow the walk on the given sines and draws |
| Generator.WalkDetermined | frontend/src/Pagelayout/Dashboard/TimeSeriesChart.jsx:97-102 | two series that follow the walk on the same sines and draws have the same values, so the walk leaves the values no freedom |
| Generator.WalkStaysNear | frontend/src/Pagelayout/Dashboard/TimeSeriesChart.jsx:97-102 | every value of a series that follows the walk lies within 14v/19 of the target |
| Generator.BackfillTimeline | frontend/src/Pagelayout/Dashboard/TimeSeriesChart.jsx:93-94 | a backfill ends at `now`, its timestamps strictly increase, and all lie within the range before `now` |
| Generator.VoltageBackfillSanity | frontend/src/Pagelayout/Dashboard/TimeSeriesChart.jsx:70-71 | a 15-minute voltage backfill has 90 points, each between 218 and 242 |
| Window.Append | frontend/src/Pagelayout/Dashboard/TimeSeriesChart.jsx:316-319 | appending to a non-empty window keeps its length, drops the oldest sample, keeps the order of the rest and ends with the new one |
| Window.AppendAllSlides | frontend/src/Pagelayout/Dashboard/TimeSeriesChart.jsx:316-319 | after k appends the window is the last |w| elements of the old window followed by the new samples |
| Window.RescoreCadence | frontend/src/Pagelayout/Dashboard/TimeSeriesChart.jsx:321 | a full window is re-scored on every sample for 1h, 6h and 24h, and never for 15m |
| Window.StreamUpdate | frontend/src/Pagelayout/Dashboard/TimeSeriesChart.jsx:315-327 | the stream callback slides the window and produces a new prediction iff the new length is divisible by 8; that prediction is the scorer's on the new window with the same draws |
| Window.StreamedWindowCadence | frontend/src/Pagelayout/Dashboard/TimeSeriesChart.jsx:316-324 | streaming onto a freshly backfilled window keeps its point count and re-scores iff the range is not 15m |
| Chart.ValueRange | frontend/src/Pagelayout/Dashboard/TimeSeriesChart.jsx:198 | the value range is positive; it is max − min when they differ, otherwise the fallback 1 |
| Chart.ChartX | frontend/src/Pagelayout/Dashboard/TimeSeriesChart.jsx:227 | x lies in [0, width], with the first point at 0 and the last at width |
| Chart.ChartY | frontend/src/Pagelayout/Dashboard/TimeSeriesChart.jsx:228 | the minimum of the window is drawn on the 0.9h line, also for a flat window |
| Chart.ChartXIncreasing | frontend/src/Pagelayout/Dashboard/TimeSeriesChart.jsx:227 | later samples are drawn strictly further right |
| Chart.ChartYWithin | frontend/src/Pagelayout/Dashboard/TimeSeriesChart.jsx:228 | values in [min, max] map into [0.1h, 0.9h], with min at 0.9h and a distinct max at 0.1h |
| Chart.ChartYDecreasing | frontend/src/Pagelayout/Dashboard/TimeSeriesChart.jsx:228 | a larger value is drawn strictly higher (smaller y) |
| Chart.ChartPoint | frontend/src/Pagelayout/Dashboard/TimeSeriesChart.jsx:226-230 | every plotted point of the window lies inside the guide band |
| Chart.ExtremesOnGuides | frontend/src/Pagelayout/Dashboard/TimeSeriesChart.jsx:195-230 | some point sits on the lower guide, and when the values differ some point sits on the upper guide |
| Chart.StepsTelescope | frontend/src/Pagelayout/Dashboard/TimeSeriesChart.jsx:257 | the successive changes of a series add up to last − first |
| Chart.Steps | frontend/src/Pagelayout/Dashboard/TimeSeriesChart.jsx:257 | one step per pair of neighbours, step i being value i+1 minus value i |
| Chart.TrendColourIsNetMovement | frontend/src/Pagelayout/Dashboard/TimeSeriesChart.jsx:257-259 | the line is green iff the sum of all steps is positive, and red otherwise |
| Chart.TrendColour | frontend/src/Pagelayout/Dashboard/TimeSeriesChart.jsx:257-259 | the line is green or red, and a single-point window is red |
| Chart.HeaderOf | frontend/src/Pagelayout/Dashboard/TimeSeriesChart.jsx:334-337 | an empty window reads 0; otherwise the current figure is the last value; with a non-zero previous value the change is last − previous and the percent is change/previous·100; a previous value of 0 is skipped, giving no change; the percent is absent exactly when the divisor is 0; the arrow rises iff the change is ≥ 0; with a missing or zero previous value and a non-zero current one the percent is 0 |
| Chart.HeaderOfAppend | frontend/src/Pagelayout/Dashboard/TimeSeriesChart.jsx:334-337 | after a non-zero value, a new sample is reported as the step to it, that step as a percentage of the old value, and a rising arrow iff the value did not fall |
| Chart.ZeroPreviousHidesChange | frontend/src/Pagelayout/Dashboard/TimeSeriesChart.jsx:335 | a previous sample of 0 is skipped by `||`, so the header reports no change |
| Controller.AtMostOneInterval | frontend/src/Pagelayout/Dashboard/TimeSeriesChart.jsx:166-181 | under the single-stream discipline at most one interval is live, and it is the one held in the stream slot |
| Controller.Clear | frontend/src/Pagelayout/Dashboard/TimeSeriesChart.jsx:310-312 | clearing stops the slot's interval, keeps the other intervals and changes nothing else |
| Controller.Start | frontend/src/Pagelayout/Dashboard/TimeSeriesChart.jsx:309-331 | starting clears the slot's interval, stores a fresh handle in the slot, runs the selected metric's generator from its target, and marks the panel connected |
| Controller.StartLeavesOne | frontend/src/Pagelayout/Dashboard/TimeSeriesChart.jsx:309-314 | when only the slot's interval was live, exactly the new one is live afterwards |
| Controller.Mount | frontend/src/Pagelayout/Dashboard/TimeSeriesChart.jsx:143-181 | the mounted panel satisfies the invariant, is loading and live, and has one interval running |
| Controller.Select | frontend/src/Pagelayout/Dashboard/TimeSeriesChart.jsx:143-171 | a new metric or range clears the live interval and requests a backfill; re-selecting, or selecting while loading or unmounted, changes nothing |
| Controller.ToggleLive | frontend/src/Pagelayout/Dashboard/TimeSeriesChart.jsx:174-181 | the button flips live mode; resuming with an empty slot starts a stream; pausing clears the interval and empties the slot |
| Controller.Finish | frontend/src/Pagelayout/Dashboard/TimeSeriesChart.jsx:144-162 | corrected (Findings row 3): a resolved backfill ends loading; a failure marks the panel disconnected and keeps data and intervals; a success installs and scores the data and restarts streaming if live; a result after unmount is dropped |
| Controller.FinishAsWritten | frontend/src/Pagelayout/Dashboard/TimeSeriesChart.jsx:144-164 | as written, any pending backfill is settled, with no check that the panel is still mounted |
| Controller.UnmountDuringBackfillLeaks | frontend/src/Pagelayout/Dashboard/TimeSeriesChart.jsx:153-170 | unmounting during the initial backfill leaves a live interval that nothing clears |
| Controller.Tick | frontend/src/Pagelayout/Dashboard/TimeSeriesChart.jsx:314-328 | a cleared interval never fires; a live one slides the window by the generator's next real-time sample stamped `now`, stores the generated value as the interval's `lastValue`, replaces the insight by the scorer's on the new window exactly when its length is divisible by 8 and otherwise keeps it, and keeps the live set and slot |
| Controller.Unmount | frontend/src/Pagelayout/Dashboard/TimeSeriesChart.jsx:166-170 | unmounting clears the slot's interval |
| Controller.SelectKeepsInv | frontend/src/Pagelayout/Dashboard/TimeSeriesChart.jsx:143-171 | selecting preserves the single-interval invariant |
| Controller.ToggleLiveKeepsInv | frontend/src/Pagelayout/Dashboard/TimeSeriesChart.jsx:174-181 | the live toggle preserves the invariant |
| Controller.FinishKeepsInv | frontend/src/Pagelayout/Dashboard/TimeSeriesChart.jsx:144-162 | corrected (Findings row 3): a resolved backfill preserves the invariant |
| Controller.TickKeepsInv | frontend/src/Pagelayout/Dashboard/TimeSeriesChart.jsx:314-328 | an interval firing preserves the invariant, including the generator bound |
| Controller.UnmountKeepsInv | frontend/src/Pagelayout/Dashboard/TimeSeriesChart.jsx:166-170 | unmounting preserves the invariant and leaves nothing running |
| Controller.StepKeepsInv | frontend/src/Pagelayout/Dashboard/TimeSeriesChart.jsx:143-331 | corrected (Findings row 3): every event of the corrected controller preserves the invariant |
| Controller.Step | frontend/src/Pagelayout/Dashboard/TimeSeriesChart.jsx:143-331 | corrected (Findings row 3): handles are never reused, and the panel stays mounted until it is unmounted |
| Controller.RunKeepsInv | frontend/src/Pagelayout/Dashboard/TimeSeriesChart.jsx:143-331 | corrected (Findings row 3): every sequence of events of the corrected controller preserves the invariant |
| Controller.Reachable | frontend/src/Pagelayout/Dashboard/TimeSeriesChart.jsx:166-181 | corrected (Findings row 3): in every reachable state of the corrected controller at most one interval is live, it is the slot's, and nothing runs after unmount |
| Controller.RangeSwitchRestarts | frontend/src/Pagelayout/Dashboard/TimeSeriesChart.jsx:143-171 | switching range while streaming stops the old interval at once; the new backfill starts exactly one fresh interval over the new data |
| Controller.StepsAgreeWhileMounted | frontend/src/Pagelayout/Dashboard/TimeSeriesChart.jsx:144-162 | while the panel is mounted, the controller as written and the corrected one take the same step |
| Controller.StepAsWritten | frontend/src/Pagelayout/Dashboard/TimeSeriesChart.jsx:143-331 | handles are never reused, and the panel stays mounted until it is unmounted |
| Controller.FinishAsWrittenKeepsSingleStream | frontend/src/Pagelayout/Dashboard/TimeSeriesChart.jsx:144-164 | settling a backfill as written, even after unmount, keeps the single-stream discipline |
| Controller.StepAsWrittenKeepsSingleStream | frontend/src/Pagelayout/Dashboard/TimeSeriesChart.jsx:143-331 | every event of the controller as written keeps the single-stream discipline |
| Controller.RunAsWrittenKeepsSingleStream | frontend/src/Pagelayout/Dashboard/TimeSeriesChart.jsx:143-331 | every sequence of events of the controller as written keeps the single-stream discipline |
| Controller.ReachableAsWritten | frontend/src/Pagelayout/Dashboard/TimeSeriesChart.jsx:166-181 | in every state the component as written reaches after mounting, at most one interval is live, and it is the one in the stream slot |
| Alerts.Acknowledge | frontend/src/Pagelayout/Dashboard/AlertsPanel.jsx:55-59 | the list keeps its length and order; alerts with the id become acknowledged with every other field unchanged; other alerts are untouched |
| Alerts.AcknowledgeIdempotent | frontend/src/Pagelayout/Dashboard/AlertsPanel.jsx:55-59 | acknowledging the same id twice equals acknowledging it once |
| Alerts.AcknowledgeCommutes | frontend/src/Pagelayout/Dashboard/AlertsPanel.jsx:55-59 | acknowledging two ids gives the same list in either order |
| Alerts.AcknowledgeAbsent | frontend/src/Pagelayout/Dashboard/AlertsPanel.jsx:55-59 | acknowledging an id no alert carries leaves the list unchanged |
| Alerts.Active | frontend/src/Pagelayout/Dashboard/AlertsPanel.jsx:70 | holds exactly the unacknowledged alerts, and is no longer than the list |
| Alerts.Acked | frontend/src/Pagelayout/Dashboard/AlertsPanel.jsx:71 | holds exactly the acknowledged alerts, and is no longer than the list |
| Alerts.PartitionCounts | frontend/src/Pagelayout/Dashboard/AlertsPanel.jsx:70-71 | the two counts add up to the length of the list |
| Alerts.FiltersPreserveOrder | frontend/src/Pagelayout/Dashboard/AlertsPanel.jsx:70-71 | both filters distribute over concatenation, so each keeps the list's order |
| Alerts.ReplaceMovesOne | frontend/src/Pagelayout/Dashboard/AlertsPanel.jsx:55-71 | replacing one active alert by an acknowledged one moves exactly one between the lists |
| Alerts.AcknowledgeMovesOne | frontend/src/Pagelayout/Dashboard/AlertsPanel.jsx:55-71 | with unique ids, acknowledging an active alert lowers the active count by one and raises the acknowledged count by one |
| Alerts.AllClearIffEmpty | frontend/src/Pagelayout/Dashboard/AlertsPanel.jsx:79-91 | "All Clear" shows iff the list is empty; the badge shows iff some alert is unacknowledged |
| Alerts.SeverityColour | frontend/src/Pagelayout/Dashboard/AlertsPanel.jsx:37-44 | critical, warning and info map to red, yellow and blue, and every other severity to gray |
| Alerts.DiffSeconds | frontend/src/Pagelayout/Dashboard/AlertsPanel.jsx:63 | the whole-second count is the floor of the elapsed milliseconds over 1000 |
| Alerts.ElapsedOf | frontend/src/Pagelayout/Dashboard/AlertsPanel.jsx:65-67 | seconds below 60; minutes in [1, 59] for 60 ≤ diff < 3600, floored; otherwise at least one hour, floored |
| Alerts.Render | frontend/src/Pagelayout/Dashboard/AlertsPanel.jsx:65-67 | the label is the count, then the unit letter s, m or h of the unit, then " ago" |
| Alerts.FormatTimestamp | frontend/src/Pagelayout/Dashboard/AlertsPanel.jsx:61-68 | under 60 seconds the label is the seconds, under 3600 the floored minutes, otherwise the floored hours, each followed by its unit letter and " ago" |
| Alerts.FormatNamesUnit | frontend/src/Pagelayout/Dashboard/AlertsPanel.jsx:61-68 | the label ends in " ago" preceded by the unit letter s, m or h chosen by the elapsed seconds |
| Alerts.SeededAlertLabels | frontend/src/Pagelayout/Dashboard/AlertsPanel.jsx:11-68 | the three seeded alerts read "5m ago", "15m ago" and "30m ago" |
| RealTime.Reading | frontend/src/Pagelayout/Monitoring/RealTimeCharts.jsx:16-19 | a fresh reading lies in [395, 405), [1100, 1300), [49.9, 50.1) or [60, 70) by channel |
| RealTime.AxisMax | frontend/src/Pagelayout/Monitoring/RealTimeCharts.jsx:27-30 | each chart's axis maximum is above its minimum |
| RealTime.Readings | frontend/src/Pagelayout/Monitoring/RealTimeCharts.jsx:5-8 | one reading per draw, in order |
| RealTime.Init | frontend/src/Pagelayout/Monitoring/RealTimeCharts.jsx:4-9 | each of the four series starts with exactly 20 in-band readings |
| RealTime.Tick | frontend/src/Pagelayout/Monitoring/RealTimeCharts.jsx:14-21 | every non-empty series keeps its length and shifts its readings one place toward the front |
| RealTime.TickKeepsWf | frontend/src/Pagelayout/Monitoring/RealTimeCharts.jsx:14-21 | after a tick each series still holds 20 in-band readings |
| RealTime.TickAppendsFresh | frontend/src/Pagelayout/Monitoring/RealTimeCharts.jsx:16-19 | the newest reading of each series is the one just drawn |
| RealTime.BarHeightBand | frontend/src/Pagelayout/Monitoring/RealTimeCharts.jsx:67 | every in-band reading's bar height lies in [25, 75) percent |
| RealTime.Summarize | frontend/src/Pagelayout/Monitoring/RealTimeCharts.jsx:36-39 | min and max are values of the series bounding all of it, current is the last value, and min ≤ current ≤ max |
| SystemStatus.InitialMetrics | frontend/src/Pagelayout/Dashboard/SystemStatusOverview.jsx:4-13 | the gauges start inside their clamp bands |
| SystemStatus.TickMetrics | frontend/src/Pagelayout/Dashboard/SystemStatusOverview.jsx:60-65 | after a tick health is in [85, 95] and quality in [98, 100], the update time is `now`, and nothing else changes |
| SystemStatus.TickStepBounded | frontend/src/Pagelayout/Dashboard/SystemStatusOverview.jsx:63-64 | from inside the bands, a tick moves health by at most 1 and quality by at most 0.25 |
| SystemStatus.HealthColour | frontend/src/Pagelayout/Dashboard/SystemStatusOverview.jsx:76-80 | green iff health ≥ 90, yellow iff 75 ≤ health < 90, red iff health < 75 |
| SystemStatus.HealthNeverRedAfterTick | frontend/src/Pagelayout/Dashboard/SystemStatusOverview.jsx:63-80 | the health gauge is never red after a tick |
| SystemStatus.NextStatValue | frontend/src/Pagelayout/Dashboard/SystemStatusOverview.jsx:69 | a value with no numeric prefix becomes "NaN" |
| SystemStatus.NextStatValueNear | frontend/src/Pagelayout/Dashboard/SystemStatusOverview.jsx:69 | a parsable value is rewritten with one decimal, reads back as exactly that decimal, and lies within 1.05 of the old parsed value |
| SystemStatus.NextStatValueNearTenths | frontend/src/Pagelayout/Dashboard/SystemStatusOverview.jsx:67-70 | a value a tick already rewrote (any `toFixed(1)` text) moves by at most 1 on the next tick and reads back exactly |
| SystemStatus.NextStatValueTenthsStep | frontend/src/Pagelayout/Dashboard/SystemStatusOverview.jsx:69 | the next text of a `toFixed(1)` value is the rendering of the rounded step, and it is within 1 of the old value |
| SystemStatus.NextStatValueOfParsed | frontend/src/Pagelayout/Dashboard/SystemStatusOverview.jsx:69 | a value that parses as v becomes v plus the walk's step, rounded to tenths and rendered |
| Text.ToFixed1NearTenth | frontend/src/Pagelayout/Dashboard/SystemStatusOverview.jsx:69 | a value within 1 of a multiple of a tenth rounds to within 1 of it |
| Text.ToFixed1StepNear | frontend/src/Pagelayout/Dashboard/SystemStatusOverview.jsx:69 | a multiple of a tenth moved by less than 1 and rounded to tenths stays within 1 of where it started |
| SystemStatus.PowerFlowRestartsNearOne | frontend/src/Pagelayout/Dashboard/SystemStatusOverview.jsx:19-69 | the power flow "1,247" is read as 1, so its first tick lands within 1.05 of 1 |
| SystemStatus.TickQuickStats | frontend/src/Pagelayout/Dashboard/SystemStatusOverview.jsx:67-70 | the list keeps its length, and each statistic changes only in its value, which is the next walked value |
| SystemStatus.TickKeepsIdentity | frontend/src/Pagelayout/Dashboard/SystemStatusOverview.jsx:67-70 | every statistic keeps its id, label, unit, trend and status |
| SystemStatus.TrendMarkOf | frontend/src/Pagelayout/Dashboard/SystemStatusOverview.jsx:82-88 | "up" rises, "down" falls, and every other trend is level |
| SystemStatus.TrendColour | frontend/src/Pagelayout/Dashboard/SystemStatusOverview.jsx:90-96 | green for rising, red for falling, gray for every other trend |
| Palette.StatusColour | frontend/src/Pagelayout/Dashboard/SystemStatusOverview.jsx:98-105 | healthy, warning and critical map to green, yellow and red, and every other status to gray |
| Palette.IndicatorColour | frontend/src/Pagelayout/Monitoring/EquipmentMonitor.jsx:84-87 | green iff healthy, yellow iff warning, and red for every other status |
| Palette.IndicatorAgreesOnKnown | frontend/src/Pagelayout/Monitoring/AssetHealthPanel.jsx:27-71 | the two-way dot colour agrees with the four-way status colour exactly on the three known statuses; an unknown status is red on one and gray on the other |
| AssetMetrics.OnlineCount | frontend/src/Pagelayout/Monitoring/AssetMetrics.jsx:21 | the online count is 21 or 22, and 22 iff the draw is at least 0.5 |
| AssetMetrics.Tick | frontend/src/Pagelayout/Monitoring/AssetMetrics.jsx:16-22 | after a tick online is 21 or 22, uptime in [99.97, 99.99), quality in [99.15, 99.25), and the total, warning and critical counts are unchanged |
| AssetMetrics.TickForgetsHistory | frontend/src/Pagelayout/Monitoring/AssetMetrics.jsx:18-22 | the refreshed figures do not depend on the previous ones |
| AssetMetrics.Click | frontend/src/Pagelayout/Monitoring/AssetMetrics.jsx:61-63 | clicking deselects iff the key was selected, and otherwise selects that key |
| AssetMetrics.ClickTwiceFromNothing | frontend/src/Pagelayout/Monitoring/AssetMetrics.jsx:61-63 | two clicks on a key from nothing selected return to nothing selected |
| AssetMetrics.ClickThrice | frontend/src/Pagelayout/Monitoring/AssetMetrics.jsx:61-63 | three clicks on a key act as one |
| AssetMetrics.OnlineAssetsLabel | frontend/src/Pagelayout/Monitoring/AssetMetrics.jsx:87 | "onlineAssets" is captioned "online Assets" |
| AssetMetrics.OnlineAssetsSpaced | frontend/src/Pagelayout/Monitoring/AssetMetrics.jsx:87 | spacing "onlineAssets" before its capital gives "online Assets" |
| AssetMetrics.SpaceBeforeOneCapital | frontend/src/Pagelayout/Monitoring/AssetMetrics.jsx:87 | a key with exactly one capital gets exactly one space, just before it |
| AssetMetrics.LabelReadsBack | frontend/src/Pagelayout/Monitoring/AssetMetrics.jsx:87 | for a key starting in lower case, the trim does nothing and removing the inserted spaces gives the key back |
| AssetMetrics.Label | frontend/src/Pagelayout/Monitoring/AssetMetrics.jsx:87 | the caption neither starts nor ends with white space |
| AssetMetrics.Decimals | frontend/src/Pagelayout/Monitoring/AssetMetrics.jsx:83 | 2 decimals iff the key contains "avg", otherwise 0 |
| AssetMetrics.UptimeFormat | frontend/src/Pagelayout/Monitoring/AssetMetrics.jsx:83-84 | uptime shows 2 decimals and a percent sign |
| AssetMetrics.QualityFormat | frontend/src/Pagelayout/Monitoring/AssetMetrics.jsx:83-84 | data quality shows 0 decimals and a percent sign |
| AssetMetrics.CountFormats | frontend/src/Pagelayout/Monitoring/AssetMetrics.jsx:83-84 | the four asset counts show 0 decimals and no percent sign |
| AssetMetrics.PlainCount | frontend/src/Pagelayout/Monitoring/AssetMetrics.jsx:83-84 | a key with neither 'v' nor 'Q' shows 0 decimals and no percent sign |
| Text.SpaceBeforeUpper | frontend/src/Pagelayout/Monitoring/EquipmentMonitor.jsx:93 | one space is added per capital, and the result never starts with a capital |
| Text.SpaceBeforeUpperRoundTrip | frontend/src/Pagelayout/Monitoring/EquipmentMonitor.jsx:93 | removing the inserted spaces gives back the original key |
| Text.SpaceBeforeUpperAppend | frontend/src/Pagelayout/Monitoring/EquipmentMonitor.jsx:93 | the spacing distributes over concatenation |
| Text.SpaceBeforeUpperNoCapitals | frontend/src/Pagelayout/Monitoring/EquipmentMonitor.jsx:93 | a key without capitals is unchanged |
| Text.SpaceBeforeUpperEnds | frontend/src/Pagelayout/Monitoring/EquipmentMonitor.jsx:93 | the last character is kept, and so is a first character that is not a capital |
| Text.SpaceBeforeEveryUpper | frontend/src/Pagelayout/Monitoring/EquipmentMonitor.jsx:93 | every capital of the caption is preceded by a space |
| Text.TrimNoOp | frontend/src/Pagelayout/Monitoring/AssetMetrics.jsx:87 | trimming a string that neither starts nor ends with white space changes nothing |
| Text.TrimStartSuffix | frontend/src/Pagelayout/Monitoring/AssetMetrics.jsx:87 | trimming the start leaves a suffix of the text that does not start with white space |
| Text.TrimEndPrefix | frontend/src/Pagelayout/Monitoring/AssetMetrics.jsx:87 | trimming the end leaves a prefix of the text that does not end with white space |
| Text.Trim | frontend/src/Pagelayout/Monitoring/AssetMetrics.jsx:87 | the result neither starts nor ends with white space, and a text of white space alone trims to "" |
| Text.ContainsIff | frontend/src/Pagelayout/Monitoring/EquipmentMonitor.jsx:96-98 | `includes` holds iff the substring occurs at some position |
| Text.NotContainsWithout | frontend/src/Pagelayout/Monitoring/EquipmentMonitor.jsx:96-98 | a string lacking one character of the substring does not contain it |
| Text.NatToStringValue | frontend/src/Pagelayout/Dashboard/AlertsPanel.jsx:65-67 | the rendered decimal digits read back as the number |
| Text.LeadingDigitsIsLongestPrefix | frontend/src/Pagelayout/Dashboard/SystemStatusOverview.jsx:69 | the digit run `parseFloat` reads is a prefix of the text and stops at the first non-digit |
| Text.ParseFloatStopsAtComma | frontend/src/Pagelayout/Dashboard/SystemStatusOverview.jsx:19-69 | "1,247" parses as 1 |
| Text.ParseFloat | frontend/src/Pagelayout/Dashboard/SystemStatusOverview.jsx:69 | a blank text is NaN; a text starting with a digit is a number; one starting with anything but a digit, sign or "." is NaN |
| Text.ToFixed1 | frontend/src/Pagelayout/Dashboard/SystemStatusOverview.jsx:69 | rounding to tenths keeps the sign and moves the value by at most 0.05 |
| Text.TenthsTextParses | frontend/src/Pagelayout/Dashboard/SystemStatusOverview.jsx:69 | the digits "q.r" of a tenths count t parse as t/10 |
| Text.SignedRoundTrip | frontend/src/Pagelayout/Dashboard/SystemStatusOverview.jsx:69 | an optional minus before a digit-led body negates what the body parses to |
| Text.RenderFixed1RoundTrip | frontend/src/Pagelayout/Dashboard/SystemStatusOverview.jsx:69 | `parseFloat` reads back exactly the value `toFixed(1)` rendered |
| Text.RenderFixed1 | frontend/src/Pagelayout/Dashboard/SystemStatusOverview.jsx:69 | the text ends in "." and one digit, and starts with "-" exactly for a negative rounding |
| Equipment.Walk | frontend/src/Pagelayout/Monitoring/EquipmentMonitor.jsx:55-60 | a number moves by at most half its width; anything else becomes or stays `NaN` |
| Equipment.TickMetrics | frontend/src/Pagelayout/Monitoring/EquipmentMonitor.jsx:53-61 | a tick writes all six walked keys, keeps every other key's value, keeps numbers numbers and bounds their change |
| Equipment.StepBounds | frontend/src/Pagelayout/Monitoring/EquipmentMonitor.jsx:55-58 | per tick primaryVoltage moves at most 0.25, secondaryVoltage 0.15, current 5 and oilTemp 0.25 |
| Equipment.Tick | frontend/src/Pagelayout/Monitoring/EquipmentMonitor.jsx:50-62 | the list keeps its length and each item is ticked with its own draws |
| Equipment.TickItem | frontend/src/Pagelayout/Monitoring/EquipmentMonitor.jsx:51-53 | only the metrics of an item change |
| Equipment.TickKeepsIdentity | frontend/src/Pagelayout/Monitoring/EquipmentMonitor.jsx:51-53 | every item keeps its id, name, type, status and location |
| Equipment.BreakerGainsNaNRows | frontend/src/Pagelayout/Monitoring/EquipmentMonitor.jsx:35-61 | after one tick the breaker shows its own three rows plus the six walked keys, all `NaN` |
| Equipment.MissingKeysBecomeNaN | frontend/src/Pagelayout/Monitoring/EquipmentMonitor.jsx:54-61 | an item lacking every walked key gains all six as `NaN` and keeps its own rows |
| Equipment.RowLabel | frontend/src/Pagelayout/Monitoring/EquipmentMonitor.jsx:93 | the caption has one extra character per capital, and removing its spaces gives the key back |
| Equipment.UnitSuffix | frontend/src/Pagelayout/Monitoring/EquipmentMonitor.jsx:96-100 | " kV" for "Voltage", then " A" for "current", then "°C" for "Temp" or "temperature", then exact "load" and "reactance"; empty iff no rule applies |
| Equipment.VoltageUnit | frontend/src/Pagelayout/Monitoring/EquipmentMonitor.jsx:96 | both voltage keys read in kV |
| Equipment.CurrentUnit | frontend/src/Pagelayout/Monitoring/EquipmentMonitor.jsx:97 | "current" reads in A |
| Equipment.DegreeUnit | frontend/src/Pagelayout/Monitoring/EquipmentMonitor.jsx:98 | a temperature key with no 'V' and no 'c' reads in °C |
| Equipment.TemperatureUnits | frontend/src/Pagelayout/Monitoring/EquipmentMonitor.jsx:98 | oilTemp, windingTemp and temperature read in °C |
| Equipment.ExactUnit | frontend/src/Pagelayout/Monitoring/EquipmentMonitor.jsx:99-100 | "load" reads in % and "reactance" in Ω |
| Equipment.Unitless | frontend/src/Pagelayout/Monitoring/EquipmentMonitor.jsx:96-100 | a key matching none of the rules gets no suffix |
| AssetHealth.InitialAssets | frontend/src/Pagelayout/Monitoring/AssetHealthPanel.jsx:7-14 | six assets with ids 1 to 6, all inside [70, 99] |
| AssetHealth.Drift | frontend/src/Pagelayout/Monitoring/AssetHealthPanel.jsx:20 | before clamping, a tick moves health by at most 0.5 |
| AssetHealth.TickAsset | frontend/src/Pagelayout/Monitoring/AssetHealthPanel.jsx:18-21 | the new health is in [70, 99]: the drift itself when the drift is in band, exactly 70 when it falls below, exactly 99 when it rises above; id, name, type and status are kept |
| AssetHealth.Tick | frontend/src/Pagelayout/Monitoring/AssetHealthPanel.jsx:17-22 | the list keeps its length; asset i is ticked with draw i, so its health is the clamped drift of its own old health; every health is in [70, 99]; every other field is kept |
| AssetHealth.TickStepBounded | frontend/src/Pagelayout/Monitoring/AssetHealthPanel.jsx:20 | from inside the band, clamping never makes a step larger than 0.5 |
| AssetHealth.Badge | frontend/src/Pagelayout/Monitoring/AssetHealthPanel.jsx:27-43 | the badge is gray exactly for a status other than healthy, warning and critical |
| AssetHealth.Bar | frontend/src/Pagelayout/Monitoring/AssetHealthPanel.jsx:68-71 | the bar is red exactly for a status other than healthy and warning |
| AssetHealth.Percent | frontend/src/Pagelayout/Monitoring/AssetHealthPanel.jsx:76 | the shown percentage is health rounded half up |
| AssetHealth.TickDisplay | frontend/src/Pagelayout/Monitoring/AssetHealthPanel.jsx:20-76 | after a tick the shown percentage is in [70, 99], and the badge and bar colours are unchanged because status is never recomputed |
| AssetHealth.BadgeAndBarAgree | frontend/src/Pagelayout/Monitoring/AssetHealthPanel.jsx:27-71 | the badge and the bar colour agree iff the status is one of the three known ones |
| AssetHealth.TicksStayInBand | frontend/src/Pagelayout/Monitoring/AssetHealthPanel.jsx:17-22 | any number of ticks keeps every health in [70, 99] |
| AssetHealth.Run | frontend/src/Pagelayout/Monitoring/AssetHealthPanel.jsx:17-22 | repeated ticks keep the number of assets |

## Left out

- Canvas drawing (grid, bezier strokes, gradients, markers) and the random-height volume bars are side effects on a 2-D context. Only the coordinate mapping and the trend colour are modelled.
- Timers, promises and React scheduling are not modelled, including the 200 ms delay, the interval periods and batched updates. Each effect, callback and resolution is one explicit transition. The order of events is arbitrary, and the invariant is proved for every order.
- IEEE-754 arithmetic is replaced by exact reals. The only `NaN` cases modelled are the empty scoring window, the header's 0/0 change percentage (`percent` is `None`), adding to a missing metric and a non-numeric quick statistic.
- Generator.StreamPoint: the emitted value is the exact sum, not `Number(newValue.toFixed(2))`. The 7v/9 and 14v/19 bounds are stated before that 2-decimal rounding. The backfill values are likewise unrounded.
- Generator.StreamPoint: the trend is the corrected one of Findings row 2 (up iff the value rose). As written the source always emits "down", which `Generator.TrendAsWritten` models.
- Generator.Backfill: the timestamps use the corrected spacing range/N of Findings row 1, and the trend is the corrected one of Findings row 2. As written the spacing is (now − range)/N, which `Generator.TimestampAsWritten` models.
- Controller.Finish: drops a backfill that resolves after unmount, the correction of Findings row 3. As written the source settles it anyway, which `Controller.FinishAsWritten` models. `Controller.FinishKeepsInv`, `Controller.StepKeepsInv`, `Controller.RunKeepsInv` and `Controller.Reachable` are about this corrected controller. The controller as written is covered by `Controller.ReachableAsWritten`, with the weaker single-stream discipline.
- `toLocaleTimeString` is left out. It formats the `time` field of a sample and the "Updated" clock, which are display text taken from the host locale.
- `parseFloat` exponents, "Infinity" and hexadecimal forms are left out. The model reads an optional sign, leading white space, a digit run and an optional fraction, which covers every value the quick statistics produce.
- Chart.ChartX requires at least two points. With one point the source divides by zero and draws at `NaN`, which the canvas ignores.
- Equipment.Walk: adding to a text metric would give string concatenation in JavaScript. No walked key ever holds text in the seeded data, so the model turns it into `NaN`.
- The display order of `Object.entries` and every Tailwind class string are not modelled. Only the colour each lookup chooses is modelled.
- The area fill, the target line and the current-value marker of the chart are drawing only.
- `getSeverityIcon` (AlertsPanel.jsx:46-53) is not modelled separately. It is the same four-way switch as `Alerts.SeverityColour`, returning an emoji.
- SystemStatus.NextStatValueNear: for an arbitrary parsable text the bound is 1.05, not 1, because the walk moves the value by less than 1 and `toFixed(1)` rounding adds up to 0.05. From the second tick on every value is a `toFixed(1)` text, and `SystemStatus.NextStatValueNearTenths` gives the bound of 1.
- The metrics that never change (`connectionStatus`, `activeAlerts`, `maintenanceScheduled`, alert texts, asset names) are carried as data with no further property.

## Findings

| source | as written | input that shows it | evidently intended | confidence | as-written member | corrected member |
|---|---|---|---|---|---|---|
| frontend/src/Pagelayout/Dashboard/TimeSeriesChart.jsx:79-81, 94 | the backfill spacing is `(now − rangeMs) / N`, a fraction of the whole epoch clock | `now` = 1.7·10^12 ms, range 1h: the first point lies about 54 years before `now` | spacing `rangeMs / N`, so the N points cover the selected range and end at `now` | not executed | Generator.TimestampAsWrittenLeavesRange | Generator.BackfillTimeline |
| frontend/src/Pagelayout/Dashboard/TimeSeriesChart.jsx:55, 61, 102, 109 | `lastValue` is overwritten before the `newValue > lastValue` test, so every sample's trend is "down" | previous value 230, new value 231: reported as down | compare with the previous value: up iff the value rose | not executed | Generator.TrendAsWrittenMissesRise | Generator.TrendOf |
| frontend/src/Pagelayout/Dashboard/TimeSeriesChart.jsx:143-171, 309-331 | `initializeData` starts a stream after its backfill resolves, even when the cleanup has already run | mount, unmount before the backfill resolves, then the backfill resolves: interval 2 runs with nothing left to clear it | skip the settle step once the effect has been cleaned up, so nothing streams after unmount | not executed | Controller.UnmountDuringBackfillLeaks | Controller.Reachable |
