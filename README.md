# Medicinal storage dashboard: telemetry and status core

A model of the decision logic of the desktop dashboard
`Sist_Emb_projeto/Dashboard/dashboard_medicinal.py`. The dashboard subscribes
over MQTT to temperature and humidity readings from a sensor device. It judges
each reading pair against a named storage profile (vaccines, insulin, reagents,
solutions, antibiotics) and supervises the broker connection and the device's
liveness. The model covers:

- `profiles.dfy`: the fixed profile table and its lookup by identifier.
- `status.dfy`: the tier rule (OK, WARN or CRITICAL) and the 0..100
  stability score, as pure functions over reals. Python's `round` (ties to
  even) is modelled.
- `link.dfy`: the `MQTTClient` wrapper. It holds the session flag, the
  signals each callback emits (returned as values), the CONNACK reason table
  and the publish gate.
- `supervisor.dfy`: the reconnect and liveness handlers of `DashboardWindow`
  as pure transitions. It also holds lemmas about single handlers and about
  whole event sequences.
- `history.dfy`: the chart's three bounded buffers and the tick and marker
  choices of `update_chart`.
- `dashboard.dfy`: `DashboardWindow` as a class. Its handlers change its
  fields step by step. Each handler's `ensures` ties the new state to the
  transitions above.

The MQTT library is an oracle. Whether `connect` raised, the CONNACK code,
the library's own "connected" answer, and each message's topic and payload
are parameters. Publications and subscriptions are returned values. The
current time is a parameter `now` in seconds. Float parsing is a parameter
`parse: string -> Option<real>`.

Where the design description and the code differ, the model follows the code.
- The code rewrites the "device offline" status on every periodic check, with
  the new elapsed seconds. It does not raise a single stale transition.
- The CONNACK table also names return code 2 (identifier rejected).
- After the attempt ceiling, `_check_mqtt_connection` still treats a down link
  with an idle timer as a disconnection and restarts the timer. The next
  firing stops the timer again without connecting. "Terminal" therefore means
  that no further `connect()` call is made (`Supervisor.NoConnectPastCeiling`,
  `Supervisor.TimerCyclesPastCeiling`).
- Nothing in the code serialises `connect()` calls. A timer firing within the
  ceiling always calls it.
- A periodic check that finds the link down while the reconnect timer is
  already running changes nothing. The design moves the status to
  "disconnected" whenever the link is found down.

A `connect()` that raises inside `_try_reconnect` emits its error signal on
the same thread, so `_on_mqtt_error` runs before `_try_reconnect` returns.
`_try_reconnect` has nothing left to do after `connect()`. The model therefore
reports the call (`TryReconnect` returns `connectCalled`), and the caller
delivers the link's signals afterwards with `Deliver`. The final state is the
same.

## Model

| member | source | states |
|---|---|---|
| Profiles.Lookup | Sist_Emb_projeto/Dashboard/dashboard_medicinal.py:47-53 | a profile is found exactly for the five selector identifiers, and every profile found keeps tmin < optimum < tmax and umin < umax |
| Status.Classify | Sist_Emb_projeto/Dashboard/dashboard_medicinal.py:1358-1368 | CRITICAL exactly when some bound is strictly exceeded; OK exactly when the reading is at least the temperature margin (10% of the range) and the humidity margin (10% of the range, at least 1) inside every edge; WARN otherwise |
| Status.RoundHalfEven | Sist_Emb_projeto/Dashboard/dashboard_medicinal.py:1350 | Python `round`: the result is within one half of its argument, and on a tie it is even |
| Status.RoundHalfEvenIsNearest | Sist_Emb_projeto/Dashboard/dashboard_medicinal.py:1350 | no integer is nearer to the argument than the rounded value, and an even integer at the same distance is that value, so rounding is unique |
| Status.TemperatureScore | Sist_Emb_projeto/Dashboard/dashboard_medicinal.py:1339-1341 | the temperature score lies in 0..100 and is 100 exactly at the optimum |
| Status.HumidityScore | Sist_Emb_projeto/Dashboard/dashboard_medicinal.py:1343-1348 | the humidity score lies in 0..100 and is 100 exactly when the humidity is within its bounds |
| Status.Stability | Sist_Emb_projeto/Dashboard/dashboard_medicinal.py:1339-1350 | for a profile with a positive temperature range the score is an integer in 0..100, and it is 100 at the optimum with humidity in bounds |
| Status.ComputeStability | Sist_Emb_projeto/Dashboard/dashboard_medicinal.py:1333-1350 | an unknown profile identifier scores 0; every score is in 0..100 |
| Status.TemperatureBoundIsWarn | Sist_Emb_projeto/Dashboard/dashboard_medicinal.py:1359-1364 | a temperature exactly on tmin or tmax, with humidity in bounds, is WARN and never CRITICAL |
| Status.HumidityBoundIsWarn | Sist_Emb_projeto/Dashboard/dashboard_medicinal.py:1359-1368 | a humidity exactly on umin or umax, with temperature in bounds, is WARN and never CRITICAL |
| Status.TableOptimumIsOk | Sist_Emb_projeto/Dashboard/dashboard_medicinal.py:47-53 | every profile in the table is OK at its optimum with 40% humidity, and scores 100 there |
| Status.VaccineExamples | Sist_Emb_projeto/Dashboard/dashboard_medicinal.py:1352-1368 | vaccine profile: 5 C / 40% is OK with score 100, 2.5 C / 40% is WARN, 1 C / 40% is CRITICAL |
| Status.FullScoreOffOptimum | Sist_Emb_projeto/Dashboard/dashboard_medicinal.py:1339-1350 | a score of 100 does not imply the optimum: 5.02 C / 40% under the vaccine profile also rounds to 100 |
| Link.NatToDecimal | Sist_Emb_projeto/Dashboard/dashboard_medicinal.py:459 | the decimal rendering of a number is a non-empty string of digits |
| Link.DecimalRoundTrip | Sist_Emb_projeto/Dashboard/dashboard_medicinal.py:459 | reading the rendered digits back gives the number |
| Link.IntToDecimalRoundTrip | Sist_Emb_projeto/Dashboard/dashboard_medicinal.py:459 | the rendering of any integer, sign included, reads back to that integer |
| Link.ConnackReason | Sist_Emb_projeto/Dashboard/dashboard_medicinal.py:452-459 | refusal codes 1..5 map to their five fixed reasons; any other code gives the "unknown code" prefix followed by the code |
| Link.UnknownReasonsDiffer | Sist_Emb_projeto/Dashboard/dashboard_medicinal.py:459 | two different unknown codes never give the same reason text |
| Link.Route | Sist_Emb_projeto/Dashboard/dashboard_medicinal.py:473-483 | no signal for an unparsable payload or a foreign topic; otherwise the channel's signal carrying the parsed value, then `data_received` |
| Link.MqttClient.constructor | Sist_Emb_projeto/Dashboard/dashboard_medicinal.py:396-398 | a new client starts with the session flag cleared |
| Link.MqttClient.Connect | Sist_Emb_projeto/Dashboard/dashboard_medicinal.py:416-424 | a raising connect clears the flag and emits the error and a "down" status; otherwise the flag is unchanged and nothing is emitted |
| Link.MqttClient.Disconnect | Sist_Emb_projeto/Dashboard/dashboard_medicinal.py:426-430 | the flag is cleared |
| Link.MqttClient.CheckConnection | Sist_Emb_projeto/Dashboard/dashboard_medicinal.py:432-434 | up exactly when both the flag and the library report a connection |
| Link.MqttClient.PublishCommand | Sist_Emb_projeto/Dashboard/dashboard_medicinal.py:436-439 | a command is published to the command topic exactly when the flag is set, and dropped otherwise |
| Link.MqttClient.OnConnect | Sist_Emb_projeto/Dashboard/dashboard_medicinal.py:441-462 | the flag is set exactly for return code 0, which also emits "connected" and "up" and subscribes to both telemetry topics; any other code emits the translated refusal and "down" and subscribes to nothing |
| Link.MqttClient.OnDisconnect | Sist_Emb_projeto/Dashboard/dashboard_medicinal.py:464-471 | whatever the reason code, the flag is cleared and "disconnected" and "down" are emitted |
| Link.MqttClient.OnMessage | Sist_Emb_projeto/Dashboard/dashboard_medicinal.py:473-483 | the signals are those of `Route`, and a message never emits a connection, disconnection or error signal |
| Supervisor.OnConnected | Sist_Emb_projeto/Dashboard/dashboard_medicinal.py:1180-1195 | a connection resets the counter to 0, stops the timer and shows "awaiting device", and calls nothing |
| Supervisor.ArmTimer | Sist_Emb_projeto/Dashboard/dashboard_medicinal.py:1211-1212 | afterwards the timer is running; it is started only when it was idle, and no connect is called |
| Supervisor.OnDisconnected | Sist_Emb_projeto/Dashboard/dashboard_medicinal.py:1197-1213 | a disconnection shows "disconnected" and leaves the timer running, starting it only when it was idle; the counter and the last-seen time are unchanged and nothing connects |
| Supervisor.OnError | Sist_Emb_projeto/Dashboard/dashboard_medicinal.py:1215-1231 | an error shows its message and leaves the timer running, starting it only when it was idle; the counter and the last-seen time are unchanged and nothing connects |
| Supervisor.OnCheck | Sist_Emb_projeto/Dashboard/dashboard_medicinal.py:1233-1270 | a periodic check never connects and never changes the counter or the last-seen time; it starts the timer exactly when the link is down and the timer idle |
| Supervisor.OnTimer | Sist_Emb_projeto/Dashboard/dashboard_medicinal.py:1288-1310 | a firing adds 1 to the counter and connects exactly while the new count is at most 10; otherwise it stops the timer and shows "reconnect failed"; a connecting firing leaves the timer as it was, and no firing starts the timer or changes the last-seen time |
| Supervisor.Step | Sist_Emb_projeto/Dashboard/dashboard_medicinal.py:815-820 | one delivered event: a firing of an idle timer changes nothing; a `connect()` call comes only from a firing and leaves the counter at most 10; only a connection lowers the counter, to 0, and it stops the timer |
| Supervisor.OnData | Sist_Emb_projeto/Dashboard/dashboard_medicinal.py:1272-1274 | data records `now` as the last-seen time and shows "online", changing nothing else |
| Supervisor.CheckRule | Sist_Emb_projeto/Dashboard/dashboard_medicinal.py:1233-1270 | down with an idle timer: disconnection handling. Down with a running timer: no change. Up with no data ever: "awaiting". Up with data more than 10 s old (strictly): "offline" with the elapsed seconds truncated. Up with recent data: no change. It never connects or moves the counter |
| Supervisor.ConnectsBounded | Sist_Emb_projeto/Dashboard/dashboard_medicinal.py:1288-1310 | over any event sequence with no successful connection, the number of `connect()` calls is at most the attempts left below 10 |
| Supervisor.AtMostTenConnectsBetweenConnections | Sist_Emb_projeto/Dashboard/dashboard_medicinal.py:1180-1194 | after a successful connection, at most 10 `connect()` calls happen before the next one |
| Supervisor.NoConnectPastCeiling | Sist_Emb_projeto/Dashboard/dashboard_medicinal.py:1290-1295 | once the counter has reached 10, no event sequence without a connection makes another `connect()` call |
| Supervisor.TimerCyclesPastCeiling | Sist_Emb_projeto/Dashboard/dashboard_medicinal.py:1237-1239 | past the ceiling, a check that finds the link down restarts the timer, and the next firing stops it again without connecting |
| Supervisor.StaleIsStrict | Sist_Emb_projeto/Dashboard/dashboard_medicinal.py:1242-1245 | exactly 10 s after the last data nothing changes; 10.5 s after, the device shows offline for 10 whole seconds |
| History.Push | Sist_Emb_projeto/Dashboard/dashboard_medicinal.py:623-627 | appending to a full 60-element deque evicts the oldest: the result is the newest 60 of the old contents plus the new value |
| History.Replay | Sist_Emb_projeto/Dashboard/dashboard_medicinal.py:518-521 | a buffer filled by any number of appends never holds more than 60 points |
| History.ReplayIsNewest | Sist_Emb_projeto/Dashboard/dashboard_medicinal.py:518-521 | after any sequence of appends the buffer holds exactly the newest 60 values, in arrival order |
| History.PushNeverShrinks | Sist_Emb_projeto/Dashboard/dashboard_medicinal.py:623-627 | an append never shortens the buffer, and grows it by one while it is not full |
| History.ChartHistory.constructor | Sist_Emb_projeto/Dashboard/dashboard_medicinal.py:518-521 | the three buffers start empty |
| History.ChartHistory.AddPoint | Sist_Emb_projeto/Dashboard/dashboard_medicinal.py:623-627 | each buffer becomes its bounded append, so the three stay equal in length and at most 60 long |
| History.ShowMarkers | Sist_Emb_projeto/Dashboard/dashboard_medicinal.py:668 | the contract states that an empty chart draws markers and a full one (60 points or more) never does; the threshold itself, markers while fewer than 20 points, is the body's `< 20` test |
| History.MarkersStayOff | Sist_Emb_projeto/Dashboard/dashboard_medicinal.py:668 | once 20 points are recorded, markers stay off after any further append |
| History.Stride | Sist_Emb_projeto/Dashboard/dashboard_medicinal.py:662 | `x_indices[::step]`: the multiples of step below n, in order, one per step |
| History.TickPositions | Sist_Emb_projeto/Dashboard/dashboard_medicinal.py:659-666 | tick positions are valid point indices, strictly increasing, and start at the first point |
| History.FewPointsAllTicked | Sist_Emb_projeto/Dashboard/dashboard_medicinal.py:665-666 | with at most eight points every point gets a tick |
| History.TicksExceedLabelCount | Sist_Emb_projeto/Dashboard/dashboard_medicinal.py:659-661 | as written, more than eight points get `n / (n // 8)` ticks rounded up: 15 points get 15, 23 get 12 and a full buffer of 60 gets 9 |
| History.TicksEightOnlyOnMultiples | Sist_Emb_projeto/Dashboard/dashboard_medicinal.py:659-663 | as written, above eight points the count is exactly eight when the number of points is a multiple of eight, and more than eight for every other count |
| History.TickPositionsCapped | Sist_Emb_projeto/Dashboard/dashboard_medicinal.py:659-666 | the corrected selection: same validity and order, and never more than eight ticks |
| Dashboard.Evaluate | Sist_Emb_projeto/Dashboard/dashboard_medicinal.py:1352-1372 | no evaluation for an unknown identifier; otherwise the profile's name, a tier that is CRITICAL exactly outside the envelope and OK exactly clear of the edges, and a score in 0..100 |
| Dashboard.DashboardWindow.constructor | Sist_Emb_projeto/Dashboard/dashboard_medicinal.py:799-843 | no readings, no verdict, the first selector profile, empty chart, counter 0, timer idle, "connecting" |
| Dashboard.DashboardWindow.OnMqttConnected | Sist_Emb_projeto/Dashboard/dashboard_medicinal.py:1180-1195 | the new supervisor state is `Supervisor.OnConnected` of the old one; only the counter, timer and status fields change |
| Dashboard.DashboardWindow.OnMqttDisconnected | Sist_Emb_projeto/Dashboard/dashboard_medicinal.py:1197-1213 | the new state is `Supervisor.OnDisconnected` of the old one, and the timer is reported started exactly when it was idle |
| Dashboard.DashboardWindow.OnMqttError | Sist_Emb_projeto/Dashboard/dashboard_medicinal.py:1215-1231 | the new state is `Supervisor.OnError` of the old one, and the timer is reported started exactly when it was idle |
| Dashboard.DashboardWindow.CheckMqttConnection | Sist_Emb_projeto/Dashboard/dashboard_medicinal.py:1233-1270 | the new state is `Supervisor.OnCheck` of the old one at `now` |
| Dashboard.DashboardWindow.OnDataReceived | Sist_Emb_projeto/Dashboard/dashboard_medicinal.py:1272-1286 | the new state is `Supervisor.OnData` of the old one at `now` |
| Dashboard.DashboardWindow.TryReconnect | Sist_Emb_projeto/Dashboard/dashboard_medicinal.py:1288-1310 | the new state is `Supervisor.OnTimer` of the old one, and `connect()` is reported called exactly when the new count is at most 10 |
| Dashboard.DashboardWindow.UpdateStatus | Sist_Emb_projeto/Dashboard/dashboard_medicinal.py:1352-1372 | the verdict becomes the evaluation under the selected profile; for an unknown identifier it stays as it was |
| Dashboard.DashboardWindow.UpdateChartAndStatus | Sist_Emb_projeto/Dashboard/dashboard_medicinal.py:1324-1327 | only when both readings are known is a point appended to all three buffers and the verdict refreshed; otherwise nothing changes |
| Dashboard.DashboardWindow.OnTemperature | Sist_Emb_projeto/Dashboard/dashboard_medicinal.py:1312-1316 | the temperature is stored, and a point is recorded and the verdict refreshed only if a humidity is already known |
| Dashboard.DashboardWindow.OnHumidity | Sist_Emb_projeto/Dashboard/dashboard_medicinal.py:1318-1322 | the humidity is stored, and a point is recorded and the verdict refreshed only if a temperature is already known |
| Dashboard.DashboardWindow.OnProfileChanged | Sist_Emb_projeto/Dashboard/dashboard_medicinal.py:1329-1331 | the new identifier is selected; the verdict is re-evaluated only when both readings are known, and the chart is never touched |
| Dashboard.DashboardWindow.Deliver | Sist_Emb_projeto/Dashboard/dashboard_medicinal.py:815-820 | each link signal reaches its handler. Supervisor signals act as the matching supervisor step and leave the readings, the verdict and all three chart buffers alone. A reading is stored; if the other reading is known it appends `now` to the times, the two current readings to their buffers and refreshes the verdict, otherwise all three buffers and the verdict stay as they were. The status signal changes nothing |
| Dashboard.Startup | Sist_Emb_projeto/Dashboard/dashboard_medicinal.py:828-843 | with the timer created before the first attempt, the window comes up with `StartupReordered`'s supervisor state, no readings, no verdict, the first selector profile, an empty chart and the client's session flag cleared |
| Dashboard.StartupAsWritten | Sist_Emb_projeto/Dashboard/dashboard_medicinal.py:828-843 | as written, start-up ends in the missing-attribute fault exactly when the first `connect()` raises; otherwise the window comes up in the initial supervisor state |
| Dashboard.StartupReordered | Sist_Emb_projeto/Dashboard/dashboard_medicinal.py:828-843 | a raising first `connect()` leaves the timer running and the error shown; otherwise the initial state |
| Dashboard.StartupRaiseFaults | Sist_Emb_projeto/Dashboard/dashboard_medicinal.py:828-843 | as written, a raising first `connect()` reaches the error handler before the timer exists; without a raise the written and reordered startups agree |

## Findings

| source | as written | input that shows it | evidently intended | confidence | as-written member | corrected member |
|---|---|---|---|---|---|---|
| Sist_Emb_projeto/Dashboard/dashboard_medicinal.py:828-843 | `connect()` runs before `reconnect_timer` is assigned. If it raises, the error signal is handled at once on the same thread, and `_on_mqtt_error` reads the missing `reconnect_timer` attribute | a broker unreachable at start-up, so `client.connect` raises | the error is handled like any later one: the reconnect timer starts | medium; not executed (the effect of the failing slot depends on how PyQt treats exceptions in slots) | Dashboard.StartupAsWritten | Dashboard.StartupReordered |
| Sist_Emb_projeto/Dashboard/dashboard_medicinal.py:659-663 | the step is `n // 8`, so 9 to 15 points use step 1 and get one tick each, and every count above eight that is not a multiple of eight gets more than eight ticks | 15 points give 15 tick labels; 23 give 12; 60 give 9 | at most `num_labels` (8) ticks, with a step of `n / 8` rounded up | medium; not executed | History.TickPositions | History.TickPositionsCapped |

## Left out

- Console logging: the handlers' `print` calls (for example at
  `Sist_Emb_projeto/Dashboard/dashboard_medicinal.py` lines 449, 462, 1195,
  1213 and 1294) only write diagnostics and change no state.
- Qt widgets, layouts, style sheets, label texts and colours, and the chart
  drawing. The status indicator is modelled by what it means (`LinkStatus`),
  and the status panel by a `Verdict`.
- The MQTT library: network, TLS, `loop_start`/`loop_stop`, subscription
  delivery, and any reconnection the library itself performs. Its outcomes
  are parameters.
- Cross-thread signal marshalling. A signal emission is a returned value, and
  `Deliver` hands it to its handler.
- The wall clock. Time is the parameter `now`, and chart time stamps are kept
  as that value rather than formatted as `HH:MM:SS`.
- Float parsing and UTF-8 decoding: both are the `parse` parameter. Both
  failures raise `ValueError` in the source and are dropped the same way.
  The `parse` parameter returns only reals, so Python's `inf` and `nan`
  readings are not modelled. In the source a "nan" temperature makes both
  temperature comparisons of the tier rule false, so the tier is decided by
  the humidity alone (OK when the humidity is clear of its edges), and
  `max(0, nan)` gives 0, so with humidity in range the stability is 35.
- IEEE floating point: all arithmetic is on reals. A reading within rounding
  error of a margin edge can be classified differently from the binary
  computation.
- Link.MqttClient.Connect: the library's `connect` and `loop_start` are not
  modelled; only whether they raised.
- Timer periods: the reconnect timer's 5 s and the periodic check's 3 s.
  Events are modelled in the order they arrive, not when they arrive.
- `closeEvent`, `main` and the credentials: start-up wiring and shutdown with
  no decision logic.
- The view-mode switch of the chart and the y-axis margin arithmetic: display
  only.
