# Smart-home dashboard: telemetry clients, watering controls, window list and device list

This project is a Dafny model of the logic inside a React home-automation dashboard. Only the logic is modelled, not the rendering. It has four parts:

- **The reconnecting telemetry client** (`Connection`, `Backoff`, `Readings`, `TankView`). Each of the three telemetry views (`WaterTankLevel`, `WateringSystem`, `prototypetank_1`) builds its own copy of this client in an effect:
  - `connectWebSocket` opens a socket;
  - `handleReconnect` schedules one retry with backoff `min(10000, 1000·2^retry)` ms;
  - `onopen` resets the retry counter;
  - `onmessage` stores the readings; the tank views clamp `amount`, and the watering view clamps `waterAmount`, into [0, 100];
  - the effect's cleanup closes the socket and clears the timer.

  The model is one pure transition function over events (`Connect`, `Open`, `Message`, `Error`, `Close`, `TimerFire`, `Cleanup`). A flag says whether a failed `new WebSocket(...)` is caught. Only the tank view catches it. In the other two copies the exception escapes, and a failure inside the retry timer then leaves the client with no timer at all (`Connection.UncaughtFailureStalls`).
- **The watering controls** (`Watering`, `TimeOfDay`):
  - the four-field message decoder;
  - the inclusive "HH:MM" auto-watering window under JavaScript string order, which has no wrap past midnight;
  - the START/STOP button, which sends its command only while the socket is open;
  - the simulated fill of the water bar: +2 % per tick, capped at the target captured when the fill started.
- **The desktop window list** (`Desktop`): open-or-raise, close and bring-to-front over the windows and the z-order counter. It proves uniqueness and z-order invariants.
- **The device list** (`Devices`): toggling a device by id, the periodic rewrite of sensor statuses to "25°C".."29°C", and which device types are switchable.

Timers, sockets, `Date` and `Math.random` are inputs:
- a timer is a pending marker plus a count of live timeouts;
- a construction failure is a boolean on the connect events;
- the current time is an "HH:MM" string;
- each random draw is a real in [0, 1).

Facts about the code that the model keeps:
- The cleanup sets no stop flag. It clears the timeout but leaves the timer ref set. If no timer was pending, the `onclose` caused by the cleanup schedules a new reconnect after unmount (`Connection.CleanupDoesNotStop`). If one was pending, the ref stays set until a later socket's `onopen` clears it; until then a drop schedules nothing (`Connection.CleanupWithPendingTimerBlocksReconnect`, `Connection.OpenAfterCleanupRestoresReconnect`).
- `connectWebSocket` has no already-connecting guard: it always constructs a new socket, whatever state the old one is in.
- A reading carries no timestamp. Only the last value is kept.

## Model

| member | source | states |
|---|---|---|
| Backoff.Delay | src/WaterTankLevel.js:67 | every reconnect delay lies between 1 s and the 10 s cap |
| Backoff.DelaySchedule | src/WaterTankLevel.js:67 | the first four delays are 1000, 2000, 4000 and 8000 ms |
| Backoff.DelayCapped | src/WaterTankLevel.js:67 | from retry 4 on, the delay is always 10000 ms |
| Backoff.DelayMonotone | src/WateringSystem.js:75 | a higher retry count never yields a shorter delay |
| Backoff.DelayDoubles | src/WateringSystem.js:75 | each delay is the previous delay doubled, up to the cap |
| Backoff.DelayUncapped | src/prototypetank_1.js:48 | for retries 0..3 the delay is exactly 1000·2^retry |
| Readings.Clamp | src/WaterTankLevel.js:38 | a clamped reading lies in [0, 100]; values already in range are kept; negative values give 0 and values above 100 give 100 |
| Readings.ClampIdempotent | src/WaterTankLevel.js:38 | clamping twice gives the same value as clamping once |
| Readings.ClampMonotone | src/WateringSystem.js:49 | clamping preserves the order of two readings |
| Readings.ClassifyLevel | src/WaterTankLevel.js:87-91 | low iff level < 20; full iff level > 90; normal iff 20 ≤ level ≤ 90, so exactly 20 and exactly 90 are normal |
| Readings.ClassifyMoisture | src/WateringSystem.js:157-159 | very dry iff < 30; very wet iff > 70; medium iff 30..70 inclusive |
| Readings.Millilitres | src/prototypetank_1.js:118 | the volume lies between 0 and the capacity; it is 0 when empty and the whole capacity when full |
| Readings.Litres | src/WaterTankLevel.js:195-197 | the litre figure is the millilitre figure divided by 1000, between 0 and capacity/1000 |
| Readings.MillilitresMonotone | src/WaterTankLevel.js:195 | a fuller tank never shows less water |
| Readings.ApplyAmount | src/WaterTankLevel.js:34-42 | a message with `amount` sets the level to the clamped amount; one without `amount`, or one that does not parse, leaves the level unchanged |
| Readings.ApplyAmountInRange | src/prototypetank_1.js:24-32 | a level in [0, 100] stays in range whatever message arrives |
| Readings.LastAmountWins | src/WaterTankLevel.js:37-39 | a message with `amount` gives the same level whatever the earlier level was (last value wins) |
| Connection.RequestClose | src/WaterTankLevel.js:47-49 | `close()` moves a connecting or open socket to closing and leaves a closing or closed socket alone |
| Connection.HandleReconnect | src/WaterTankLevel.js:65-74 | with a timer already in the ref, nothing changes; otherwise exactly one timer is added, with the backoff delay of the current retry count; retry and socket are unchanged |
| Connection.ConnectAttempt | src/WaterTankLevel.js:17-64 | a successful construction installs a connecting socket; a failed one goes to the reconnect path when caught, and otherwise escapes with the state untouched |
| Connection.Step | src/WaterTankLevel.js:21-63 | when construction is wrapped in try/catch, no event lets an exception escape; without the wrapper, only connect attempts can throw |
| Connection.StepPreservesValid | src/WaterTankLevel.js:25-83 | every handler keeps at most one live timer, and a live timer is always recorded in the ref |
| Connection.RunPreservesValid | src/WateringSystem.js:73-82 | any event sequence from a valid state keeps that invariant, so at most one timer is pending |
| Connection.AtMostOneTimer | src/WaterTankLevel.js:66 | from the initial state, no interleaving of events ever leaves two reconnect timers pending |
| Connection.DropsWhilePendingAreIgnored | src/WateringSystem.js:74 | while a timer is pending, any run of Error/Close events leaves the retry count, the timers and the scheduled delay unchanged |
| Connection.DropSchedulesBackoff | src/WaterTankLevel.js:45-74 | an Error or Close with no timer pending schedules exactly one timer, with delay `Delay(retry)`, and leaves retry unchanged |
| Connection.OpenResets | src/WaterTankLevel.js:25-31 | after Open the retry count is 0, no timer is live and the ref is cleared, whatever the prior state |
| Connection.TimerFireIncrements | src/WaterTankLevel.js:69-73 | a firing timer raises retry by exactly 1 and clears the marker; a successful reconnect then leaves a connecting socket and no timer |
| Connection.CaughtFailureSchedulesRetry | src/WaterTankLevel.js:57-63 | in the tank view, a construction failure inside the timer never escapes and schedules the next attempt with the delay for retry+1 |
| Connection.UncaughtFailureStalls | src/prototypetank_1.js:50-54 | without try/catch, a construction failure inside the timer escapes and leaves no timer and no marker, so no further reconnect is scheduled |
| Connection.StaleTimerFireIgnored | src/WaterTankLevel.js:82 | a timer that was cleared cannot fire: the event changes nothing |
| Connection.CleanupCancelsTimers | src/WaterTankLevel.js:76-83 | cleanup leaves no live timer and keeps the retry count; a second cleanup changes nothing further |
| Connection.CleanupDoesNotStop | src/WateringSystem.js:86-89 | cleanup sets no stop flag: a client with an empty timer ref that is cleaned up and then receives `onclose` has a live reconnect timer again |
| Connection.CleanupWithPendingTimerBlocksReconnect | src/WaterTankLevel.js:76-83 | cleanup clears a pending timeout but does not empty the ref, so after it a successful connect followed by a drop before opening leaves no live timer |
| Connection.OpenAfterCleanupRestoresReconnect | src/WaterTankLevel.js:25-31 | after such a cleanup, a later socket's `onopen` empties the ref, and a drop after that schedules a reconnect again |
| Connection.MessageKeepsConnection | src/WaterTankLevel.js:34-43 | a message, well-formed or not, leaves the connection state untouched and throws nothing |
| TankView.Step | src/prototypetank_1.js:12-61 | connection events drive the client and leave the level alone; messages update the level via `ApplyAmount`; a construction error escapes only from a gauge that does not catch it, and only on a connect or a timer firing |
| TankView.WaterTankNeverEscapes | src/WaterTankLevel.js:21-60 | the tank view wraps the construction in try/catch, so no event sequence lets an exception out |
| TankView.PrototypeMountFailureEscapes | src/prototypetank_1.js:14-15 | the prototype's first connect on mount lets a construction error escape |
| TankView.InitValid | src/WaterTankLevel.js:4-12 | both gauges start with no timer and a level in range |
| TankView.InitialStatus | src/prototypetank_1.js:4 | the prototype's initial 100 % classifies as full and the tank view's initial 0 % as low: the values the mount effect sets |
| TankView.StepPreservesValid | src/WaterTankLevel.js:34-74 | each event keeps the single-timer invariant and a level in [0, 100] |
| TankView.RunPreservesValid | src/prototypetank_1.js:12-61 | any event sequence keeps the single-timer invariant and a level in [0, 100] |
| TankView.FullTankVolumes | src/WaterTankLevel.js:195-197 | a full 7000 ml tank shows 7 litres and an empty one 0; a full 5000 ml prototype tank shows 5000 ml |
| TankView.RecoveryScenario | src/WaterTankLevel.js:21-73 | after two caught construction failures, a successful third attempt, Open and `{amount: 73.2}`: retry goes 0, 1, 2 and back to 0, the delays are 1 s and 2 s, and the level is 73.2, shown as normal |
| TimeOfDay.LexLeTotalOrder | src/WateringSystem.js:99 | JavaScript `<=` on strings is reflexive, antisymmetric, transitive and total |
| TimeOfDay.WindowInclusive | src/WateringSystem.js:99 | both the start and the end time are inside a non-empty window |
| TimeOfDay.ReversedWindowNeverOn | src/WateringSystem.js:98-99 | when start > end, no time is inside the window (no wrap past midnight) |
| TimeOfDay.ClockOrder | src/WateringSystem.js:98-99 | for well-formed "HH:MM" strings, string order coincides with order of minutes since midnight |
| TimeOfDay.WindowByMinutes | src/WateringSystem.js:96-100 | for clock times, the window test holds iff start ≤ now ≤ end in minutes since midnight |
| Watering.ApplyMessage | src/WateringSystem.js:39-54 | each of moisture, temperature, watering and waterAmount is replaced only when present; waterAmount is clamped; a malformed message changes nothing; no other state is touched |
| Watering.AutoCheck | src/WateringSystem.js:96-100 | watering is set iff start ≤ now ≤ end in string order, both ends inclusive; nothing else changes |
| Watering.AutoCheckReversedWindow | src/WateringSystem.js:98-99 | with start after end, the check always turns watering off |
| Watering.AutoCheckByClock | src/WateringSystem.js:96-100 | for clock times, the check is on exactly inside the inclusive time-of-day window |
| Watering.DefaultWindow | src/WateringSystem.js:8-9 | the default window 06:00–06:15 is on at 06:00, 06:07 and 06:15 and off at 05:59 and 06:16 |
| Watering.Toggle | src/WateringSystem.js:109-151 | the button flips `watering`; a command is sent iff the socket is open: START with the target when starting, STOP with 0 when stopping; starting resets the bar to 0 and runs the fill with the current target; stopping ends the fill |
| Watering.ToggleTwice | src/WateringSystem.js:110-111 | pressing twice restores the watering flag, and the fill then runs iff watering is on |
| Watering.FillStep | src/WateringSystem.js:129-142 | a tick never exceeds the target; it returns the target iff prev+2 ≥ target, and prev+2 otherwise |
| Watering.Tick | src/WateringSystem.js:128-144 | a stopped fill is unchanged; a running fill advances by `FillStep` and keeps running iff the bar is still below its target; nothing else changes |
| Watering.TicksWhenStopped | src/WateringSystem.js:132-133 | once the fill has stopped, further ticks change nothing |
| Watering.TicksProgress | src/WateringSystem.js:128-144 | a fill at 2m % below its target reads min(2(m+n), target) after n ticks, and runs exactly while that is below the target |
| Watering.FillFromStart | src/WateringSystem.js:123-144 | after starting with target t, n ticks show min(2n, t) %, and the fill stops once 2n ≥ t |
| Watering.Step | src/WateringSystem.js:84-151 | socket events other than messages change only the connection state, with construction not caught; an exception escapes iff a socket connect or timer firing fails to construct; a message goes through the decoder, the auto timer and a window change through the window check, the slider sets the target, the button toggles and the fill timer ticks; inputs other than socket events leave the connection alone |
| Watering.MountFailureEscapes | src/WateringSystem.js:27-28 | the effect's first connect is not wrapped in try/catch, so a construction error on mount escapes |
| Watering.StepPreservesValid | src/WateringSystem.js:23-152 | each input keeps at most one reconnect timer, the bar in [0, 100] and the targets in [1, 100] |
| Watering.RunPreservesValid | src/WateringSystem.js:23-152 | any input sequence whose slider values are in range keeps the same invariant |
| Watering.InitValid | src/WateringSystem.js:5-13 | the initial state (bar 0, target 30, no timer) satisfies the invariant |
| Desktop.Raise | src/DesktopMode.js:42 | the window with the id gets the new depth; every other window is unchanged; the length is kept |
| Desktop.BringToFront | src/DesktopMode.js:40-45 | only that window's zIndex changes, to the old counter value; all other windows and fields are kept; the counter rises by 1 even for an absent id |
| Desktop.Without | src/DesktopMode.js:37 | no window with the id remains, the list never grows, and with the id absent the list is unchanged |
| Desktop.WithoutMembers | src/DesktopMode.js:37 | a window survives closing iff it was in the list and belongs to another app |
| Desktop.CloseWindow | src/DesktopMode.js:36-38 | after closing, the id is absent and the counter is unchanged; closing an absent id changes nothing |
| Desktop.OpenWindow | src/DesktopMode.js:17-34 | opening an app that is already open behaves exactly like `bringToFront`; a new app is appended once at the end at depth nextZIndex and position (50+30n, 50+30n); the counter rises by 1 |
| Desktop.InitialValid | src/DesktopMode.js:14-15 | the empty list with counter 10 satisfies the invariant |
| Desktop.BringToFrontPreservesValid | src/DesktopMode.js:40-45 | raising keeps ids distinct, depths distinct, and every depth below the counter |
| Desktop.FrontIsTop | src/DesktopMode.js:42-44 | after `bringToFront(id)`, that window's zIndex is strictly greater than every other window's |
| Desktop.CloseRemovesOne | src/DesktopMode.js:36-38 | with distinct ids, closing the window at index k deletes exactly that entry and keeps the rest in order |
| Desktop.ClosePreservesValid | src/DesktopMode.js:36-38 | closing keeps the invariant |
| Desktop.OpenPreservesValid | src/DesktopMode.js:17-34 | opening keeps ids distinct, depths distinct and below the counter |
| Desktop.OpenThenClose | src/DesktopMode.js:24-38 | opening a new app and then closing it restores the window list, with the counter one higher |
| Desktop.RunPreservesValid | src/DesktopMode.js:14-45 | under any sequence of open, close and focus, the invariant holds and the counter never decreases |
| Devices.SwitchableExactly | src/SmartHomeManager.js:5 | a device is switchable iff its type is Light, AC or Door |
| Devices.InitialDevices | src/SmartHomeManager.js:73-79 | there are five initial devices, with ids 1..5 in order, all distinct |
| Devices.Toggled | src/SmartHomeManager.js:89 | a toggled status is "off" iff the status was "on", and "on" otherwise |
| Devices.ToggledTwice | src/SmartHomeManager.js:89 | toggling "on" or "off" twice gives back the original status |
| Devices.ToggleDevice | src/SmartHomeManager.js:83-94 | only entries with the id change, and only in their status; the length and order of the list are kept |
| Devices.ToggleDeviceTwice | src/SmartHomeManager.js:83-94 | toggling the same id twice restores the list when those devices were "on" or "off" |
| Devices.ToggleKeepsIdentity | src/SmartHomeManager.js:85-93 | toggling keeps every id, name and type, so distinct ids stay distinct |
| Devices.Decimal | src/SmartHomeManager.js:103 | the rendering of a natural number is a non-empty string of decimal digits |
| Devices.DecimalRoundTrip | src/SmartHomeManager.js:103 | reading the rendered digits back gives the original number |
| Devices.SensorReading | src/SmartHomeManager.js:103 | for a draw in [0, 1), the floor of 25 + 5r lies in 25..29 |
| Devices.SensorLabelDigits | src/SmartHomeManager.js:103 | a label for 25..29 degrees is "2", the units digit, then "°C" |
| Devices.SensorLabelRange | src/SmartHomeManager.js:103 | a label for 25..29 degrees is one of "25°C".."29°C" |
| Devices.SensorUpdate | src/SmartHomeManager.js:98-106 | only Sensor entries change, and only their status, which becomes the label of that device's draw |
| Devices.SensorUpdateRange | src/SmartHomeManager.js:98-106 | after the periodic update, every sensor shows one of "25°C".."29°C" |
| Devices.SensorUpdateKeepsIds | src/SmartHomeManager.js:98-106 | the periodic update keeps ids, so distinct ids stay distinct |

## Left out

- Rendering: JSX, styles, tank and bar geometry, colours and `toFixed` display formatting. The Thai status texts become the constructors `Low`/`Normal`/`Full` and `VeryDry`/`Medium`/`VeryWet`.
- Drag handling in `src/Window.js` and routing in `src/App.js`: DOM mouse events and react-router, with no state logic.
- Real sockets and timers. `WebSocket`, `setTimeout`, `setInterval` and `clearTimeout` are events and flags, and delays are computed numbers. Event order is an input. Nothing constrains which events a real browser could deliver in a given socket state.
- Socket identity. Every event applies to the socket the ref currently holds. The `onerror` handler closes `socketRef.current`, which may be a newer socket than the one that failed. Late events from superseded sockets are not distinguished.
- `JSON.parse`. A decoded message is the `Inbound` datatype, and a parse failure is `Malformed`. JSON field values of the wrong type (strings, `null`, NaN) are not modelled: fields are reals or booleans.
- Floating point. Readings and volumes are exact reals. `1000 * 2 ** retry` overflowing to Infinity needs no special case, since the cap gives the same result on unbounded integers.
- The rounding in `waterMl = Math.round(...)` (src/WateringSystem.js:186), a display value.
- `console.*` logging.
- The React component a desktop window renders. A window keeps its id, title, zIndex and initial position.
- React render closures. Each desktop, watering and device operation reads the latest state. This matches sequential user events, each handled after the previous re-render. The one closure that matters is modelled: the fill interval keeps the target from when it was started (`fillTarget`).
- Watering.RunPreservesValid: slider targets are assumed to be in 1..100, the range the range input produces (src/WateringSystem.js:265-270).
- Devices.SensorReading: the draw is an exact real in [0, 1) and `25 + r * 5` is computed exactly. In double arithmetic the largest `Math.random` draws (such as 1 − 2^-52) round `25 + r * 5` up to 30, so the program can show "30°C"; Devices.SensorUpdateRange inherits the same gap.
- Devices.SensorUpdateRange: uses the exact-real arithmetic of Devices.SensorReading; the program can show "30°C" for the largest draws.
- TankView.Status: the status is derived from the level. The program keeps it in React state that an effect sets after each level change (src/WaterTankLevel.js:87-91); that state starts as plain "ปกติ" (normal, src/WaterTankLevel.js:6) and lags one render behind every level change. The model does not represent renders.
- TimeOfDay.ClockOrder: stated only for well-formed "HH:MM" strings with minutes below 60. For other strings only the string-order facts hold.
