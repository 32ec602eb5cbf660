# NexoWatt VIS — a Dafny model of its core

NexoWatt VIS is an ioBroker adapter. It serves an energy dashboard for a
home installation (PV, grid, battery, load). This project models its three
core pieces and proves properties about them.

- **The back end (`main.js`, module `Server`).** It keeps an in-memory set
  of installer tokens. `/api/auth` issues a token, `/api/check` checks one,
  and each token expires after twelve hours. `/api/state` asks for a valid token
  when the id it is sent starts with `installer.`; a full id that already
  carries the namespace slips past that test (see "## Findings"). `/api/states` reports the
  eight settings and installer states. On start-up, `_ensureStates` gives each
  of the eight states an object, and each state that does not exist yet gets
  its default value; existing values are kept. The class `NexowattVis`
  holds the token set, the state store and the object set as fields, and its
  methods update them in place.
- **The live dashboard (`www/app.js`, module `Dashboard`).** Its client state
  is a map that event-stream messages replace (`init`) or merge into
  (`update`). The class `LiveView` holds that map. The module also covers the
  clamps that keep gauge percentages in [0, 100] and arc lengths in
  [0, 359.9] degrees, the hours formatter (which prints `<h>h <mm>m`), the
  power formatter, the ordered fallback
  `pick`, and the autarky and self-consumption percentages that
  `computeDerived` fills in when the server sends none.
- **The history chart (`www/history.js`, module `History`).** It builds the
  unified, ascending time axis from every series and the power scale maximum.
  It maps times and values to canvas coordinates inside fixed margins, and it
  sums a series into kilowatt-hours for the summary cards. The power lines
  are drawn in a unit that does not match their scale (see "## Findings").

Supporting modules:

- `JsValues` models the JavaScript values the code relies on. Numbers carry
  NaN and both infinities. The module also gives truthiness, `== null`,
  `Number(...)`, the arithmetic operators and `Math.min`/`Math.max`.
- `Decimal` covers how integers are written as decimal digits and read back.
- `Wrappers` holds the `Option` type.

The model follows `main.js`: any number of tokens can be live at once, and
each lives for twelve hours after it is issued.

## Model

| member | source | states |
|---|---|---|
| Server.CheckReply | main.js:27-31 | `ok` holds exactly when the token header is present, non-empty and in the token set; status 200 when ok, 401 otherwise; no token in the reply |
| Server.WriteGate | main.js:46-51 | a write is refused exactly when its id starts with `installer.` and the token check fails; a missing id or any other id always passes |
| Server.GateMonotone | main.js:49 | issuing more tokens never closes the gate for a write it already let through |
| Server.GateNeedsDot | main.js:49 | the prefix includes its dot: `installer` and `installerX…` are unguarded, `installer.…` is guarded |
| Server.FullIdBypassesGate | main.js:49 | as written, the full id `nexowatt-vis.<n>.installer.<x>` passes the gate without a token, and the write lands on the installer state that `/api/states` reports |
| Server.InstallerFullId | main.js:49 | the full id of every installer state starts with `<namespace>.installer.` |
| Server.FixedWriteGate | main.js:49 | corrected gate: a write is refused exactly when its non-empty id, after id fixing, lies under `<namespace>.installer.` and the token check fails |
| Server.FixedGateGuardsInstaller | main.js:49 | corrected gate: a write it lets through without a valid token never targets an installer state, so `/api/states` reports every installer state unchanged |
| Server.FixedGateAgreesOnShortIds | main.js:49 | the corrected gate decides exactly as the gate as written on every id that does not already carry the namespace |
| Server.FixId | main.js:53 | the id a state call uses always lies in the namespace: an id already in it is kept, any other id is prefixed with it |
| Server.FixIdIdempotent | main.js:53 | fixing an already fixed id changes nothing |
| Server.FixIdOfStateId | main.js:53 | in every instance namespace `nexowatt-vis.<n>`, a short state id is fixed to exactly the full id that `/api/states` reads and `_ensureStates` seeds |
| Server.WriteReachesRead | main.js:53 | a value written under a short state id is what `/api/states` then reports for that id |
| Server.IndexFrom | main.js:70 | the position found holds the pattern and no earlier position from the start does; no position holds it when none is found |
| Server.ReplaceFirst | main.js:70 | a string without the pattern comes back unchanged; otherwise the result is as long as the string minus the pattern plus the replacement; `StripNamespace` states what `/api/states` gets from it |
| Server.StripNamespace | main.js:70 | replacing the first `namespace.` in a full id gives back the short id |
| Server.NumberDefaultsInRange | main.js:85-94 | every number state's default is finite and within its min/max; every boolean state defaults to `false` |
| Server.StateIdsAreDefs | main.js:63-66 | `/api/states` reads exactly the ids `_ensureStates` defines, in the same order |
| Server.Seeded | main.js:95-104 | the walk never drops a state and adds at most one state per definition; `SeededKeeps`, `SeededCreates`, `SeededDefaults` and `SeededOnlyIds` carry the rest |
| Server.SeededKeeps | main.js:102-103 | seeding never changes an existing state |
| Server.SeededCreates | main.js:95-104 | after seeding, every defined state exists |
| Server.SeededDefaults | main.js:102-103 | with distinct ids, every state seeding creates holds its definition's default, acknowledged |
| Server.SeededDefault | main.js:102-103 | the same, for the definition at one position |
| Server.SeededOnlyIds | main.js:95-104 | seeding adds no key besides the defined full ids |
| Server.NexowattVis.constructor | main.js:12-17 | the adapter starts with an empty token set, and its namespace is `nexowatt-vis.<instance>` |
| Server.NexowattVis.Auth | main.js:33-44 | 403 and no change when no password is configured; 200 with the new token added and returned on an exact match; 401 and no change otherwise; a token it returns passes the check and opens every write |
| Server.NexowattVis.Expire | main.js:40 | removes exactly that token; the token then fails the check, and every other token's check result is unchanged |
| Server.NexowattVis.PostState | main.js:46-59 | 401 with the store unchanged when the gate refuses; 200 with exactly the fixed id set to the value, acknowledged, on a successful write; 500 with the store unchanged when the id is missing or empty or the write fails; after a successful write of one of the eight short ids, `/api/states` reports the written value for it |
| Server.NexowattVis.GetStates | main.js:61-77 | the reply has exactly the eight short ids as keys, each mapped to its stored value or `null` |
| Server.NexowattVis.ReadStates | main.js:67-71 | the same, for any list of short ids |
| Server.NexowattVis.EnsureStates | main.js:84-105 | every defined state gets an object; existing states are kept; missing states get their default, acknowledged; no other state is added |
| Server.NexowattVis.SeedStates | main.js:95-104 | the loop's store equals the `Seeded` walk over the definitions, and the object set grows by exactly their full ids |
| Dashboard.Get | www/app.js:139 | `state[k]?.value` is `undefined` for a key the state does not hold |
| Dashboard.ApplyMessage | www/app.js:220-231 | `init` with a payload replaces the state; `update` with a payload sets exactly its keys and keeps all others; anything else, including an unparsable message, leaves the state unchanged |
| Dashboard.UpdateIdempotent | www/app.js:225-226 | applying the same update twice equals applying it once |
| Dashboard.UpdatesCommute | www/app.js:225-226 | updates with disjoint keys give the same state in either order |
| Dashboard.InitForgetsHistory | www/app.js:223-224 | after an `init`, the state no longer depends on what came before |
| Dashboard.LiveView.constructor | www/app.js:76 | the client state starts empty |
| Dashboard.LiveView.OnMessage | www/app.js:220-232 | the new state is `ApplyMessage` of the old one; keys the message does not carry keep their entries |
| Dashboard.ClampPercent | www/app.js:58 | falsy input gives 0; an in-range number passes unchanged; the result is NaN exactly for a truthy input that reads as NaN, and otherwise lies in [0, 100] (the same clamp appears at lines 37, 48, 97 and 108) |
| Dashboard.ClampDegrees | www/app.js:6 | NaN exactly for NaN input; otherwise in [0, 359.9]; in-range values pass unchanged |
| Dashboard.HoursMinutes | www/app.js:69-72 | no split exactly for zero, NaN, infinite or negative hours; otherwise whole hours times 60 plus minutes equals the rounded total minutes, and the minutes stay below 60 |
| Dashboard.FormatHours | www/app.js:68-74 | `--` for unusable hours; otherwise at least five characters ending in `m`; `FormatHoursReadsBack` states the full format |
| Dashboard.FormatHoursReadsBack | www/app.js:68-74 | `--` exactly when the hours are unusable; otherwise digits, `h `, exactly two digits below 60, and `m`, which read back give the rounded total minutes |
| Dashboard.FormatPower | www/app.js:79-87 | `--` exactly for `undefined`, `null` and NaN-converting values; otherwise ` kW` exactly when the unit is `kW`, else ` W`; 2 decimals with ` kW` and 0 with ` W`; the amount is value/1000 with ` kW` and the value with ` W`, and never NaN |
| Dashboard.PickOf | www/app.js:140-143 | no keys give `null`; a number it gives is the number of one of the keys, whose value is usable; `PickOfFirstUsable` states that it is the first such key |
| Dashboard.PickOfFirstUsable | www/app.js:140-143 | `pick` gives `null` exactly when no key holds a usable value; otherwise it gives the number of the first usable key, which is never NaN |
| Dashboard.Pick | www/app.js:140-143 | the early-return loop computes `PickOf` |
| Dashboard.PvPowerFirst | www/app.js:117 | a usable `pvPower` wins over `productionTotal`; otherwise `productionTotal` decides |
| Dashboard.OrZero | www/app.js:133 | `sell \|\| 0` is never NaN |
| Dashboard.AutarkyPercent | www/app.js:126-130 | finite PV and load give a finite autarky in [0, 100] |
| Dashboard.SelfConsumptionPercent | www/app.js:131-136 | finite PV gives a self-consumption in [0, 100]; PV that is not positive gives 0 |
| Dashboard.Derive | www/app.js:125-137 | autarky is filled in exactly when none exists and PV and load are known; self-consumption exactly when none exists and PV is known; the range bounds of both branches |
| Dashboard.AutarkyOfInfinities | www/app.js:128 | infinite PV over infinite load gives a NaN autarky, not a percentage |
| Dashboard.ComputeDerived | www/app.js:115-144 | picks PV (preferring `pvPower`), load and feed-in, then yields `Derive` of them and of the existing values |
| Decimal.DecimalRoundTrip | www/app.js:73 | reading back the decimal digits written for a number gives the number |
| Decimal.DecimalLength | www/app.js:73 | a number is written with one digit exactly when it is below ten, which is when `formatHours` pads the minutes |
| JsValues.Or | www/app.js:58 | `v \|\| fallback` is `v` when `v` is truthy and `fallback` otherwise |
| JsValues.ToNumber | www/app.js:81 | `Number(v)` keeps a number as it is; it gives no infinity for anything but a number; a string reads as NaN exactly when it is not all digits; `null` and booleans read as finite numbers |
| JsValues.ToNumberReadsDecimal | www/app.js:81 | `Number(...)` of the decimal digits of a non-negative integer gives that integer back |
| JsValues.Clamp | www/app.js:58 | NaN passes through; every other number lands in [lo, hi]; in-range values are unchanged; the infinities go to the bounds |
| JsValues.Min | www/app.js:58 | NaN exactly when an argument is NaN; otherwise one of the arguments, and no larger than either |
| JsValues.Max | www/app.js:58 | NaN exactly when an argument is NaN; otherwise one of the arguments, and no smaller than either |
| History.CollectTimes | www/history.js:19-20 | the collected set is exactly the timestamps of all samples of all series |
| History.MinExists | www/history.js:21 | a non-empty set of timestamps has a least element, which the sort places first |
| History.SortAscending | www/history.js:21 | the axis is strictly ascending, holds exactly the collected times, and has one entry per time |
| History.PeakAbsIsMax | www/history.js:28 | a series' peak bounds the absolute value of each sample and, unless 0, is reached by one |
| History.PeakIsMax | www/history.js:27-29 | the peak over the power series bounds every one of their samples and, unless 0, is reached by one |
| History.ScanSeries | www/history.js:28 | the inner loop raises the running maximum to the series' peak |
| History.ScanPeak | www/history.js:26-29 | the nested loops compute `Peak` over the keys |
| History.MaxPower | www/history.js:26-30 | `maxW` is positive; it is 1 when no power sample is non-zero and the peak otherwise; it bounds every power sample |
| History.PlanDraw | www/history.js:11-30 | nothing is plotted without data or with fewer than two distinct times; otherwise the axis is ascending and holds exactly the sample times, and `maxW` is positive and bounds every power sample |
| History.ShareFacts | www/history.js:31-32 | `Math.max(0, v)/top` is 0 for non-positive values, 1 at the top, and within [0, 1] in between |
| History.RowFacts | www/history.js:31-32 | share 0 plots on the baseline, share 1 on the top line, and shares in between plot inside the margins |
| History.RowMonotone | www/history.js:31-32 | a larger share plots higher |
| History.YPow | www/history.js:31 | non-positive power plots on the baseline, `maxW` on the top line, and power in between inside the margins |
| History.YPowMonotone | www/history.js:31 | more power never plots lower |
| History.YSoc | www/history.js:32 | a non-positive state of charge plots on the baseline, 100 % on the top line, and values in between inside the margins |
| History.X | www/history.js:35 | over a proper range, `start` maps to the left margin and `end` to the right one; over a zero-length range, `start` maps to NaN, and (on a canvas wider than the margins) later times map to +Infinity and earlier ones to -Infinity |
| History.XFinite | www/history.js:35 | over a proper range the JavaScript arithmetic stays finite and equals the real-valued column, which is the left margin at `start` and the right margin at `end` |
| History.LineRow | www/history.js:49 | as written: state-of-charge samples in [0, 100] plot inside the margins, and zero power plots on the baseline; `LineRowSquashed` and `PeakSampleMissesTop` state the squash |
| History.LineRowKw | www/history.js:49 | corrected: the same facts as `LineRow`; `LineRowKwSpansPlot` and `LineRowKwMonotone` state that power spans the plot |
| History.LineRowSquashed | www/history.js:49 | as written (peak of raw W at line 28, sample in kW at line 49), every power sample up to `maxW` plots within a thousandth of the plot height above the baseline |
| History.PeakSampleMissesTop | www/history.js:49 | on a 300-pixel canvas with a 5000 W peak, the peak sample plots at row 273.736 instead of the top line |
| History.LineRowKwSpansPlot | www/history.js:49 | corrected: power samples plot inside the margins, 0 on the baseline and the peak sample on the top line |
| History.LineRowKwMonotone | www/history.js:49 | corrected: a larger absolute power never plots lower |
| History.XMonotone | www/history.js:35 | over a proper range on a wide enough canvas, later times plot further right and stay within the margins |
| History.ScaledSumIsProduct | www/history.js:78 | summing absolute value times step, one sample at a time, equals the step times the sum of absolute values |
| History.SumEnergyKWh | www/history.js:75-80 | 0 without samples; otherwise the sum of absolute powers times the step divided by 3 600 000; never negative for a non-negative step |

## Left out

- The HTTP plumbing: Express, body and cookie parsing, static files, `listen`, and `close` in `onUnload`. Requests and replies are plain parameters and `Reply` values.
- Token generation: `crypto.randomBytes(24).toString('hex')` becomes the `candidate` parameter of `Auth`, required to be 48 lower-case hex digits.
- The expiry timer: `setTimeout` becomes the `Expire` method, called when the twelve hours (`TokenLifetimeMs`) are over. Time itself is not modelled.
- ioBroker: the state store is an abstract map keyed by full state id. The id fixing of the state calls is modelled as `FixId`, which prefixes the namespace unless the id already starts with it; the other forms of id that ioBroker accepts (objects with device, channel and state parts) are not modelled. Object metadata (name, type, role, read/write flags) is reduced to the set of ids that have an object. Whether a write succeeds is the `storeAccepts` parameter.
- EnsureStates: every object creation, state read and state write of `_ensureStates` is taken to succeed. In the adapter a rejected call stops the walk partway, and `onReady` then never starts the web server; the model does not capture that error path or the partly seeded store it leaves.
- The 500 reply of `/api/states` when a store read throws. Reads are total in the model.
- Concurrency: `/api/states` awaits each store read in turn, so a write from `/api/state` can land between two reads. `GetStates` reads the store in one step, so the model does not capture a reply that mixes values from before and after such a write.
- `Number(...)` on strings: only the empty string and plain digit strings read as numbers. Signs, fractions, exponents, whitespace and hex are not modelled and read as NaN.
- Floating point: numbers are exact reals, so rounding, signed zero, overflow and `toFixed`'s digits are not modelled. `FormatPower` returns the amount and the number of decimals rather than the rendered text.
- Request bodies and messages that are not objects, and ids or passwords that are not strings.
- Series entries in history responses are `{values: [...]}` objects; the model keeps only the samples. `null` or non-numeric sample values are not modelled.
- The `buy` value that `computeDerived` picks and never uses.
- The browser side beyond the listed computations: the DOM, SVG arcs and icon placement, the canvas drawing calls, `render`, `bootstrap`'s `fetch` of config and snapshot, `EventSource` set-up, `localStorage` settings, `updateEnergyWeb`, the menu code, the unbalanced fragment at `www/app.js:237`, the history page's date inputs, `load` and its alert, and the tick labels.
- A server-side cache or broadcast of live data: `main.js` has no such code. It serves no `/events` stream, `/config`, `GET /api/state` (which `bootstrap` awaits before it opens the event stream, www/app.js:212) or `/api/history`, which the pages fetch; those endpoints are not part of this model.
- Derive: the range bounds are stated only for finite inputs, because infinite PV or load can make autarky NaN (`AutarkyOfInfinities`).
- ClampPercent: the result is in [0, 100] only when it is not NaN, because a truthy non-numeric input such as a non-digit string passes through as NaN.

## Findings

| source | as written | input that shows it | evidently intended | confidence | as-written member | corrected member |
|---|---|---|---|---|---|---|
| www/history.js:49 | `maxW` is the peak (line 28) of the raw absolute values in W, but `line` passes `Math.abs(p[1])/1000` (kW) to `yPow`, so every power line plots within 1/1000 of the plot height above the baseline | a 300-pixel canvas and a 5000 W peak: the peak sample plots at row 273.736, not on the top line at row 10 | the sample and the scale maximum in the same unit (kW, as the comment at line 25 says), so the peak sample reaches the top line | high; not executed | History.LineRowSquashed | History.LineRowKwSpansPlot |
| main.js:49 | the gate tests the id as sent for the prefix `installer.`, but the store call puts only ids without the namespace into it, so the full id `nexowatt-vis.<n>.installer.slider1` is written without a token | `POST /api/state` with id `nexowatt-vis.0.installer.slider1`, any value and no token: reply 200, and `/api/states` then reports the value for `installer.slider1` | every write that reaches an installer state needs a valid token, whatever form of the id is sent | high; not executed | Server.FullIdBypassesGate | Server.FixedGateGuardsInstaller |
