# Lifecycle orchestrator of an on-demand game-server proxy

This project is a Dafny model of the lifecycle core of `ProxyServer` in `src/server.js`. The proxy stands in front of a game server that runs on a cloud instance and is stopped when idle. The core is a state machine over `unknown`, `active`, `inactive`, `starting`, `stopping` and `unauthorized`. It has four parts:

- the guarded transition `setState`. Entering `starting` emits `start`, and entering `stopping` emits `stop`. The server's command invoker turns these events into boot and shutdown commands.
- the periodic `update` tick, in three steps. First, watchdog timeouts handle a stuck `stopping`/`starting`. Second, the state follows the health checker's reachability. Third, an idle shutdown is evaluated from the player count.
- the login decision `handleLogin`. It boots the backend, or rejects a client missing from the whitelist.
- the status hook `beforePing`. It passes the live status through while active. Otherwise it writes the lifecycle state into the protocol library's template response.

Modules:

- `Wrappers`: `Option`, for JavaScript values that may be `undefined`.
- `StatusData`: the status response (`version`, `players`, `description`, `favicon`) and the checker's snapshot `{active, data}`. It also holds the online count that `update` reads from that data.
- `Lifecycle`: the states, events, `currentState` and `players` records, and the constants. It gives `setState` and each step of `update` as pure functions over a `Machine` value, which is both records plus the log of emitted events. It also has the lemmas over runs of ticks.
- `Decimal`: the elapsed-seconds text `((now - time) / 1000).toFixed(0)` for an integer number of milliseconds.
- `Whitelist`: the index loop over the whitelist, and the state a login asks for.
- `Server`: the class `ProxyServer`, with fields `currentState`, `players` and `events`. `SetState`, `Update` and `HandleLogin` change those fields step by step. Each is proved equal to its `Lifecycle` function applied to the old state. `BeforePing` reads them and builds the response field by field.
- `Scenarios`: boot timeouts, idle shutdowns and retries over several ticks and logins.

Inputs in place of the outside world:

- The clock is a `now` parameter in milliseconds, read once per call.
- The checker's `currentState` is a `Snapshot` parameter.
- The parsed whitelist is a sequence of uuids.
- The whitelist switch is a boolean. It means the configured value compared equal to the string `"true"`.
- Emitted events are appended to `events` rather than dispatched to listeners.

The model follows the code where one might expect otherwise:

- A reachable backend moves a `starting` state to `active`. Only `stopping` is exempt from the reachable branch.
- The idle check fires when the idle time is equal to or greater than `SHUTDOWN_TIMEOUT`. The watchdog fires only when the elapsed time is strictly greater than its limit.
- A watchdog retry of a stuck `stopping` emits `stop` even on a tick where the backend is already unreachable. The same tick then moves the state to `inactive`.
- A rejected login replaces a running `starting` by `unauthorized`. The next unreachable tick then moves it to `inactive`, so the boot in progress loses its watchdog, and a later allowed login emits a second `start`.
- The status text carries the elapsed seconds only for `starting` and `stopping`. `unauthorized` shows the same text and banner as `unknown`.

## Model

| member | source | states |
|---|---|---|
| Lifecycle.Emitted | src/server.js:89-98 | entering `starting` emits exactly `start`, entering `stopping` exactly `stop`, and any other state emits nothing |
| Lifecycle.SetState | src/server.js:78-99 | a same-state transition without `force` changes nothing: state, time and events all stay. Otherwise the state becomes `s` at `now`, the events of entering `s` are appended, and `players` is untouched |
| Lifecycle.Watchdog | src/server.js:238-252 | a `stopping` older than 5 minutes (strictly) is re-entered with a fresh time and one new `stop`. A `starting` older than 5 minutes becomes `inactive` at `now` with no event. Any other machine is unchanged |
| Lifecycle.Reconcile | src/server.js:254-259 | reachable and not `stopping` gives `active`. Unreachable and not `starting` gives `inactive`. The two carve-outs and same-state transitions leave everything unchanged. A real change stamps `now`. No event is emitted |
| Lifecycle.ObservePlayers | src/server.js:269-275 | the recorded count becomes the observed one. The record, including its time, is replaced only when the count differs, and then gets time `now` |
| Lifecycle.IdleCheck | src/server.js:261-288 | outside `active` nothing changes. While `active`, the player record is updated. The state becomes `stopping`, with one `stop` at `now`, exactly when the count is 0 and `now - max(players.time, currentState.time) >= SHUTDOWN_TIMEOUT`. A nonzero count never stops the backend |
| Lifecycle.Tick | src/server.js:233-291 | a tick emits nothing or a single `stop`, never `start`. Afterwards the state is `active`/`stopping` when reachable and `inactive`/`starting` when not. It stays `starting` only if it was `starting`, has not timed out, and nothing changed |
| Lifecycle.TickEventCounts | src/server.js:233-291 | a tick leaves the number of `start` events unchanged and adds at most one `stop` |
| Lifecycle.RunNeverStarts | src/server.js:233-291 | over any run of ticks the event log only grows and no `start` is ever added |
| Lifecycle.UnreachableRunIsQuiet | src/server.js:246-259 | from `starting` or `inactive`, a run of unreachable ticks emits nothing and never leaves `starting`/`inactive`. From `inactive` it changes nothing at all, so an aborted boot is never retried |
| Lifecycle.StoppingHoldsWhileReachable | src/server.js:240-259 | from `stopping`, a run of reachable ticks that all fall within the watchdog's limit leaves the whole machine unchanged, with no event |
| Lifecycle.StopRetriedWhileReachable | src/server.js:240-259 | while reachable, a `stopping` state past the limit is re-entered with time `now` and one more `stop`. Before the limit the tick changes nothing |
| Lifecycle.StuckStartAborts | src/server.js:246-259 | a `starting` state past the limit while unreachable becomes `inactive` at `now`, with players and events unchanged |
| StatusData.OnlineCount | src/server.js:263-267 | the online count is `data.players.online`, or 0 when the data, its players or the online field is missing |
| Decimal.NatToDecimal | src/server.js:212 | the numeral has only digits, no leading zero, and denotes `n` |
| Decimal.RoundedSeconds | src/server.js:212 | the whole seconds nearest to the milliseconds, where a half rounds up |
| Decimal.ElapsedText | src/server.js:212 | a leading `-` exactly for negative elapsed times (so `-0` for -500 < ms < 0), then the rounded magnitude in base ten, with at least one digit and no leading zero |
| Whitelist.IsWhitelisted | src/server.js:162-172 | the scan returns true exactly when the client's uuid occurs in the whitelist |
| Whitelist.LoginTarget | src/server.js:155-196 | a login asks for `starting` exactly when the whitelist is off or lists the uuid, and for `unauthorized` exactly otherwise |
| Whitelist.LoginEffect | src/server.js:155-196 | a rejected login records `unauthorized` with no event. An accepted one enters `starting` at `now` with exactly one `start`, or changes nothing when a boot is already running |
| Server.ProxyServer.constructor | src/server.js:35-70 | both records start at `unknown` / 0 players at `now`, the log is empty, and the first tick runs at once |
| Server.ProxyServer.SetState | src/server.js:78-99 | the new fields are those of `Lifecycle.SetState` on the old ones |
| Server.ProxyServer.Update | src/server.js:233-291 | the new fields are those of `Lifecycle.Tick` on the old ones and the snapshot |
| Server.ProxyServer.HandleLogin | src/server.js:153-197 | the fields change as `setState(LoginTarget(...))`. The kick message is the boot message exactly when the whitelist is off or lists the uuid, and the rejection message otherwise |
| Server.ProxyServer.BeforePing | src/server.js:199-231 | while `active`, the checker's data is returned verbatim. Otherwise the template comes back with `players.max = 0`, `version.protocol = 1`, the favicon of the live data when there is live data (otherwise the template's), and the per-state banner and text ("Booting up"/"Shutting down" with the elapsed seconds, "Inactive", "Unknown") |
| Scenarios.BootTimesOut | src/server.js:246-259 | an allowed login, then 301 s unreachable, goes `inactive` → `starting` → `inactive` with one `start` and no `stop` |
| Scenarios.IdleShutdown | src/server.js:262-287 | when the count drops to 0 at `t0`, the clock restarts at `t0` and the first tick at least `SHUTDOWN_TIMEOUT` later stops with one `stop`. Earlier ticks change nothing |
| Scenarios.StopFiresOnce | src/server.js:240-287 | the idle shutdown emits one `stop`. After it, any run of reachable ticks up to the watchdog's limit changes nothing and emits nothing, whatever the snapshots' data |
| Scenarios.RejectedLoginCancelsBoot | src/server.js:174-187 | a rejected login during a boot records `unauthorized` with no event. The next unreachable tick records `inactive`, and a later allowed login emits a second `start` |
| Scenarios.OccupiedNeverStops | src/server.js:277-287 | with a nonzero online count, an active backend keeps its state and no event is emitted |

## Left out

- `handleClient` (src/server.js:101-151): splicing a client socket to the backend is stream I/O inside the protocol library. Only the snapshot's `active` flag, which decides the splice, appears in the model.
- `close` and the tick's timer (`setTimeout`/`clearTimeout`): one tick is one call of `Update`.
- The health checker (`./checker.js`) is not part of this model. Its `currentState` is the `Snapshot` input, and it is assumed always defined, so the `this.checker.currentState &&` guard of `beforePing` is not modelled.
- Reading, locating and parsing the whitelist file: the parsed list of uuids is an input. How `config.whitelist.enabled` is compared with `"true"` is also outside the model.
- Logging, including the `STATES[state]` lookup in the log line, and the event listeners of `src/index.js`.
- The clock: each call reads `now` once, while the source calls `Date.now()` at every use.
- JavaScript numbers: times and counts are unbounded integers. Falsy `online` values other than a missing one and 0 (NaN, for one) are not modelled.
- Server.ProxyServer.BeforePing: returns the rewritten template as a new value. The source mutates the caller's object in place and returns that same object, so the aliasing is not captured. It requires the template to carry a `players` object, as the protocol library's response does; the source would throw without one.
- Decimal.ElapsedText: matches `toFixed(0)` of the floating-point quotient only while the elapsed time is below about 10^15 ms. Beyond that, rounding of the double and the exponent notation used from 10^21 are not modelled.
