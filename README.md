# SmartAgri soil monitoring — a Dafny model

SmartAgri is a React Native app for precision-agriculture monitoring. A user logs in and configures virtual soil sensors and a polling interval on the dashboard. The user then watches simulated moisture, temperature and humidity readings on the soil-monitoring screen. Each timer tick draws a reading, makes it current and pushes it onto a newest-first log capped at 50 entries. A small storage service keeps one aggregate of current readings, log and interval under a single key.

This project models that logic in Dafny 4.11 and proves its properties:

- `SoilTypes` (SoilTypes.dfy) holds the `SoilLog` and `SoilData` records and the bounded log push, `[entry, ...logs].slice(0, 50)`. Both the storage service and the screen use this push. The module also proves that a series of pushes keeps the newest `min(50, prior + pushes)` entries, newest first.
- `SoilMonitoringStorage` (StorageService.dfy) is a class with one field, `stored: Option<SoilData>`, the value under `@SoilMonitoringData`. Its methods are save, load, clear, add-log-entry and update-current-readings. Each storage-layer fault is a boolean parameter. Every fault is swallowed: a failed read loads as `None`, and a failed write leaves the slot unchanged.
- `SoilMonitoringScreen` (MonitoringScreen.dfy) models the monitoring screen:
  - the total mapping from interval tag to timer period;
  - the per-tick update, as a class method that keeps an invariant: the log holds at most 50 rows of drawable readings, and the current triple equals the newest row;
  - the strict below-threshold test;
  - the chart series.
- `DashboardScreen` (DashboardScreen.dfy) is a class with the interval picker, the sensor form, the configured-sensor list and its `splice` deletion, and the route parameters passed to the monitoring screen. Its invariant: the selection is always a table entry, and every configured sensor has a non-empty type.
- `LoginScreen` (LoginScreen.dfy) has the login decision as a function from the entered email and password and the stored record. The result is one of five outcomes, each with its alert and its navigation.

Behaviour of the code worth knowing:

- The dashboard passes `threshold` to the monitoring screen (screens/DashboardScreen.tsx:153). The monitoring screen reads only `interval` (screens/SoilMonitoringScreen.tsx:34), so its threshold stays at 5. Drawn moisture is never below 10, so no row a tick produces is ever flagged (`TickRowsNeverFlagged`).
- The dashboard offers a "Monthly" option with value `1m`. The screen's switch has no such case, so it gets the 10-second default (`IntervalOptionPeriods`).
- Chart labels always start at `T-5`. With fewer than five log rows, the newest point is therefore labelled `T-(6-n)`, not `T-1` (`GenerateChartData`, `TicksFromMount`).
- Nothing in the scheduler writes to the storage service. The two are modelled independently, as in the code.

## Model

| member | source | states |
|---|---|---|
| SoilTypes.PushLog | src/SoilMonitoringStorageService.ts:60 | the pushed log has min(50, old length + 1) entries (so 1 to 50), the new entry first, and every later entry is the old entry one index earlier |
| SoilTypes.PushLogOnFullLog | src/SoilMonitoringStorageService.ts:60 | pushing onto a full 50-entry log drops exactly the oldest entry and keeps the new one at index 0 |
| SoilTypes.PushLogBelowCapacity | src/SoilMonitoringStorageService.ts:60 | pushing onto a log shorter than 50 drops nothing |
| SoilTypes.Reversed | screens/SoilMonitoringScreen.tsx:130 | `.reverse()`: same length, element k is the input's element length-1-k |
| SoilTypes.PushAllLogs | src/SoilMonitoringStorageService.ts:56-65 | any non-empty series of pushes, or the empty series onto a log of at most 50, gives the pushed entries in reverse order followed by the old log, cut to min(50, old length + pushes) |
| SoilMonitoringStorage.WithLogEntry | src/SoilMonitoringStorageService.ts:59-64 | the aggregate after adding an entry: bounded log with the entry at its head and the old entries shifted by one; the three current readings and the interval unchanged |
| SoilMonitoringStorage.WithCurrentReadings | src/SoilMonitoringStorageService.ts:80-85 | exactly the three current fields take the given values; logs and interval unchanged |
| SoilMonitoringStorage.WithCurrentReadingsIdempotent | src/SoilMonitoringStorageService.ts:80-85 | updating the current readings twice with the same values equals updating once |
| SoilMonitoringStorage.WithLogEntryTwice | src/SoilMonitoringStorageService.ts:60 | adding the same entry twice gives two rows with that entry at indices 0 and 1 (adding is not idempotent) |
| SoilMonitoringStorage.SoilMonitoringStorageService.constructor | src/SoilMonitoringStorageService.ts:21 | a store with nothing under the key |
| SoilMonitoringStorage.SoilMonitoringStorageService.SaveData | src/SoilMonitoringStorageService.ts:24-33 | the slot holds exactly the saved aggregate, replacing the prior value; a failed write is caught and changes nothing |
| SoilMonitoringStorage.SoilMonitoringStorageService.LoadData | src/SoilMonitoringStorageService.ts:36-44 | returns the stored aggregate, or None when the slot is empty or the read fails |
| SoilMonitoringStorage.SoilMonitoringStorageService.ClearData | src/SoilMonitoringStorageService.ts:47-53 | the slot becomes empty; a failed removal is caught and changes nothing |
| SoilMonitoringStorage.SoilMonitoringStorageService.AddLogEntry | src/SoilMonitoringStorageService.ts:56-69 | on a present aggregate with no fault, the slot becomes the aggregate with the entry pushed; an empty slot stays empty; on any fault nothing changes |
| SoilMonitoringStorage.SoilMonitoringStorageService.UpdateCurrentReadings | src/SoilMonitoringStorageService.ts:72-90 | on a present aggregate with no fault, only the three current readings change; an empty slot stays empty; on any fault nothing changes |
| SoilMonitoringStorage.SaveThenLoad | src/SoilMonitoringStorageService.ts:24-39 | save followed by load returns exactly the saved aggregate, whatever was stored before |
| SoilMonitoringStorage.ClearThenLoad | src/SoilMonitoringStorageService.ts:36-53 | clear followed by load returns None, whatever was stored before |
| SoilMonitoringStorage.MutateEmptyThenLoad | src/SoilMonitoringStorageService.ts:56-90 | updating readings and adding an entry on an empty store leave it empty: load still returns None |
| SoilMonitoringScreen.IntervalMs | screens/SoilMonitoringScreen.tsx:37-61 | every tag has a period: 10 s, 1 min, 2 min, 1 h, 2 h, 1 day and 1 week for the seven recognised tags, 10 s for any other tag; never below 10 s |
| SoilMonitoringScreen.IntervalMsDistinguishesKnownTags | screens/SoilMonitoringScreen.tsx:37-61 | two different recognised tags never give the same period |
| SoilMonitoringScreen.ReadingInRange | screens/SoilMonitoringScreen.tsx:64-66 | a drawable reading has moisture and humidity within 0 to 100 percent, moisture above the threshold 5 and a positive temperature below 100 |
| SoilMonitoringScreen.IsBelowThreshold | screens/SoilMonitoringScreen.tsx:87 | a row is flagged iff its moisture is at least one unit below the threshold; a row at the threshold is not flagged, one a unit below is |
| SoilMonitoringScreen.ChartLabel | screens/SoilMonitoringScreen.tsx:128 | the label for log index i (0 to 4) is "T-5", "T-4", "T-3", "T-2", "T-1" respectively |
| SoilMonitoringScreen.BelowThresholdIsStrict | screens/SoilMonitoringScreen.tsx:87 | a row is flagged iff its moisture is strictly below the threshold: a row at the threshold is not flagged, one a unit below is |
| SoilMonitoringScreen.TickRowsNeverFlagged | screens/SoilMonitoringScreen.tsx:64-87 | rows with drawable readings (moisture 10 to 60) are never flagged at the fixed threshold 5 |
| SoilMonitoringScreen.GenerateChartData | screens/SoilMonitoringScreen.tsx:127-132 | min(5, log length) points; point j is the metric of log entry n-1-j, so the newest entry is last; labels are the first n of "T-5" … "T-1" |
| SoilMonitoringScreen.MonitoringScreen.constructor | screens/SoilMonitoringScreen.tsx:25-61 | initial state: threshold 5, moisture 25, temperature 20, humidity 45, empty log; timer period taken from the route's interval tag |
| SoilMonitoringScreen.MonitoringScreen.OnRouteParams | screens/SoilMonitoringScreen.tsx:33-84 | new route parameters change only the timer period; readings, log and threshold are kept |
| SoilMonitoringScreen.MonitoringScreen.Tick | screens/SoilMonitoringScreen.tsx:63-81 | sets the current triple to the drawn readings and pushes the matching row onto the log; the log stays within 50 rows of drawable readings and its head equals the current triple; threshold and period unchanged |
| SoilMonitoringScreen.MonitoringScreen.RenderLogItemFlag | screens/SoilMonitoringScreen.tsx:86-88 | on this screen a row is flagged iff its moisture is below 5 |
| SoilMonitoringScreen.TicksFromMount | screens/SoilMonitoringScreen.tsx:63-132 | two ticks after mounting: the newest row is not flagged, and the moisture chart has two points labelled "T-5" and "T-4" |
| DashboardScreen.IntervalsTable | screens/DashboardScreen.tsx:18-30 | eight interval options with pairwise distinct values; the first, the initial selection, is "10s" |
| DashboardScreen.IntervalOptionPeriods | screens/DashboardScreen.tsx:18-27 | the periods the monitoring screen derives from the eight options; "Monthly" ("1m") is not a recognised tag and gets the 10 s default |
| DashboardScreen.RemoveAt | screens/DashboardScreen.tsx:67-71 | `splice(index, 1)` on a copy: for an index in range, length drops by one, elements before the index are kept and later ones shift down by one; an index past the end changes nothing |
| DashboardScreen.Dashboard.constructor | screens/DashboardScreen.tsx:29-35 | initial state: first interval option selected, picker closed, empty form, no configured sensors, list hidden |
| DashboardScreen.Dashboard.OpenIntervalPicker | screens/DashboardScreen.tsx:104 | opens the picker; nothing else changes |
| DashboardScreen.Dashboard.CloseIntervalPicker | screens/DashboardScreen.tsx:115-123 | closes the picker; nothing else changes |
| DashboardScreen.Dashboard.HandleIntervalSelect | screens/DashboardScreen.tsx:37-40 | selects the chosen option and closes the picker; sensors and form unchanged |
| DashboardScreen.Dashboard.SetSensorType | screens/DashboardScreen.tsx:88 | the sensor-type field takes the typed text; nothing else changes |
| DashboardScreen.Dashboard.SetThreshold | screens/DashboardScreen.tsx:95 | the threshold field holds the typed number; nothing else changes |
| DashboardScreen.Dashboard.HandleSensorConfigSubmit | screens/DashboardScreen.tsx:42-48 | with a non-empty type and a threshold, appends exactly one {type, threshold} at the end and resets the form; otherwise list and form are unchanged; every configured sensor keeps a non-empty type |
| DashboardScreen.Dashboard.DeleteSensor | screens/DashboardScreen.tsx:67-71 | the list becomes the old list without the entry at the given index; nothing else changes |
| DashboardScreen.Dashboard.ToggleConfiguredSensors | screens/DashboardScreen.tsx:132 | flips whether the configured-sensor list is shown; nothing else changes |
| DashboardScreen.Dashboard.NavigateToMonitoring | screens/DashboardScreen.tsx:150-154 | passes the selected option's value and the form's threshold; the value is a recognised tag or "1m" |
| LoginScreen.HandleLogin | screens/LoginScreen.tsx:19-42 | five outcomes, each iff its condition: missing input iff email or password is empty; success iff both match the stored pair; invalid credentials iff a stored pair differs in either field; no account iff nothing is stored; failure iff the stored record cannot be read |
| LoginScreen.MissingInputIgnoresStorage | screens/LoginScreen.tsx:20-23 | with an empty email or password the outcome is the missing-input error, whatever is stored |
| LoginScreen.AlertFor | screens/LoginScreen.tsx:20-41 | the alert title is "Success" exactly for a successful login and "Error" otherwise; each outcome carries its own message: "Please enter both email and password", "No account found. Please sign up first.", "Logged in successfully!", "Invalid email or password", "Failed to log in" |
| LoginScreen.NavigationFor | screens/LoginScreen.tsx:29-31 | only a successful login navigates, and it navigates to "Dashboard" |
| LoginScreen.AlertsDistinct | screens/LoginScreen.tsx:20-41 | different outcomes show different alerts |
| LoginScreen.NavigatesOnlyOnMatch | screens/LoginScreen.tsx:27-34 | navigation to the dashboard happens iff both inputs are non-empty and equal the stored pair |

## Left out

- Storage: AsyncStorage and JSON serialisation are an abstract slot. A round trip through JSON is taken as the identity. A parsed value is assumed to have the `SoilData` shape, because the source does not validate it.
- SoilMonitoringStorage.SoilMonitoringStorageService.AddLogEntry and UpdateCurrentReadings: each is modelled as one atomic step. The source awaits a load and then a save (src/SoilMonitoringStorageService.ts:58-64, 78-85), so two overlapping calls can both read the old aggregate and the later save overwrites the earlier one. That lost update is not captured.
- Storage faults: each fault is a boolean parameter of the operation. A failed write or removal is taken to leave the slot as it was, since the model has no partial writes.
- `Math.random`, `Date`, `toLocaleDateString` and `toLocaleTimeString` are not modelled. Tick readings are parameters constrained to the drawn integer ranges. Date and time are opaque strings.
- `setInterval` and `clearInterval` are not modelled: no firing times, teardown or timer overlap. The model keeps only the period the timer is started with.
- Presentation is not modelled: React rendering, styles, the monitoring screen's log and graph modal flags, FlatList, LineChart, the Alert UI and the navigation framework. Only the data they receive and the outcome chosen remain.
- Numbers are unbounded integers. JavaScript floating point, `toFixed` formatting and `Number(threshold)` coercion are not modelled.
- DashboardScreen.Dashboard.SetThreshold: takes an integer. The source's `Number(text)` can also give NaN or a fraction, and a NaN threshold passes the submit guard.
- `console.log` and `console.error` side effects are not modelled.
- scripts/mqtt.tsx is entirely commented out, so it holds no logic to model.
- The sign-up screen, which writes the stored user record that login reads, is not part of this model. Login takes the result of reading that record as a parameter.
- DashboardScreen.Dashboard.HandleIntervalSelect: requires the chosen option to be one of the table's entries, because the picker offers nothing else.
