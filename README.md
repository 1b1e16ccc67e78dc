# UniSound mini-player: connection lifecycle model

A Dafny model of the core of the UniSound mini-player, a BetterDiscord plugin that
shows the playback state of the local UniSound desktop player in Discord's account
panel and sends play/pause, next and previous commands back to it.

The core is the plugin's connection supervisor. `start()` looks for the UniSound
server by a *sweep*: it opens a WebSocket to each of the ports 5001 to 5011 and keeps
the first that opens. A failed sweep arms a five-second interval timer that sweeps
again; after the fifth failed sweep the plugin gives up (`error`) and hides the
player. A closed connection restarts the count and the timer. Around it sit the
guard of `sendCommand`, the view decisions of `ensureAccountPanelPlayer` and
`createStatusPlayerHTML`, and the artwork cache of `getArtworkDataUrl`.

Modules:

- `Lifecycle` (lifecycle.dfy): the supervisor as a pure state machine. One transition
  function per callback, an `Event` type with the condition under which each event
  can occur, runs of events, the invariant `Inv`, and the lemmas: the invariant holds
  on every run, the attempt counter stays at most five, `error` leaves no timer; from `error`,
  timer ticks, sweep results and socket errors change nothing, and only `start`,
  `stop` or a socket's close event move the plugin on; the counter changes only at
  the listed points.
- `Plugin` (plugin.dfy): the class `MiniPlayer` with the plugin's own fields. Each
  callback is a method that updates the fields in place, states the new values, and
  is proved to perform the matching `Lifecycle` transition and keep `Valid()`
  (which is `Lifecycle.Inv` of the fields). Its field-level `modifies` clauses say
  that nothing else changes.
- `View` (view.dfy): whether the player is shown, whether it shows the status line
  or the track, and the status line's text.
- `Artwork` (artwork.dfy): the cache lookup of `getArtworkDataUrl`.
- `Command` (command.dfy): the request `sendCommand` issues.
- `Media` (media.dfy): track, player state and settings; `Decimal` (decimal.dfy): how
  a number is rendered inside a template literal; `Wrappers` (wrappers.dfy): `Option`.

Inputs instead of I/O: the outcome of a sweep (`Found(port)` or `AllFailed`), the
socket's error and close events, the firing of the timer, the parsed server
message (`None` when `JSON.parse` fails), the outcome of the artwork fetch and file
read, whether a command's request hit a network error, and the settings the host's
storage returns.

Behaviour of the code that the model reproduces, although a reader might expect
otherwise:

- A failed sweep sets `disconnected` only when no retry timer is pending. When the
  timer already runs (every failure after the first), the status stays `connecting`.
  Five failures from start show `connecting, disconnected, connecting × 7, error`
  (`Lifecycle.AllPortsRefuse`, `Plugin.AllPortsRefuse`).
- There is no sweep epoch. A sweep that settles after `disconnect()` still runs its
  continuation, so a success connects again. `disconnect` does not reset
  `isConnecting`.
- The socket's `onclose` handler stays attached after `stop()`. `stop()` closes the
  socket, and the close event that follows arms the retry timer again
  (`Lifecycle.StopThenCloseRearms`). The model therefore lets close events happen at
  any time.
- `sendCommand` reports only network errors. A response with an error status counts
  as sent.
- A file-reader failure on artwork is cached as `null` and returned from the cache
  from then on. Only a failed request or a response that is not ok leaves the cache
  untouched.
- `start()` resets the attempt counter before it sweeps, so starting again after
  `error` begins a fresh count.

## Model

| member | source | states |
|---|---|---|
| `Lifecycle.PortsToScan` | UniSoundMiniPlayer.plugin.js:193 | a sweep probes eleven ports, in strictly increasing order |
| `Lifecycle.PortsToScanRange` | UniSoundMiniPlayer.plugin.js:193 | a port is probed if and only if it lies in 5001..5011 |
| `Lifecycle.StepInv` | UniSoundMiniPlayer.plugin.js:184-277 | every callback that can occur keeps the invariant: counter at most 5, a pending timer with no sweep in flight means the counter is below 5, `error` has no timer and no sweep in flight, `connected` holds a socket with no sweep and no timer, socket held iff port known, port in 5001..5011, a live socket means `connected` |
| `Lifecycle.RunInv` | UniSoundMiniPlayer.plugin.js:184-277 | the invariant holds after every sequence of events that can occur |
| `Lifecycle.ReachableInv` | UniSoundMiniPlayer.plugin.js:13-30 | every state reachable from the constructor's state satisfies the invariant |
| `Lifecycle.ReachableCapped` | UniSoundMiniPlayer.plugin.js:241-260 | in every reachable state the attempt counter is at most 5, and `error` leaves no retry timer |
| `Lifecycle.ErrorPersists` | UniSoundMiniPlayer.plugin.js:243-252 | from `error`, timer ticks, sweep results and socket errors change nothing that matters: no timer fires, no sweep settles, the status stays `error` and the counter stays put |
| `Lifecycle.CounterChanges` | UniSoundMiniPlayer.plugin.js:184-277 | the counter rises only by one as a sweep is launched; it falls only through start (to 0 then at most 1), stop, a successful sweep or a close (to 0); a failed sweep keeps it |
| `Lifecycle.FailureWithPendingTimer` | UniSoundMiniPlayer.plugin.js:255-260 | below the cap with a timer pending, a failed sweep only clears `isConnecting`: status and timer stay |
| `Lifecycle.CloseAlwaysRearms` | UniSoundMiniPlayer.plugin.js:227-234 | a close always ends with no socket, no port, `disconnected`, counter 0 and a pending timer, since `disconnect(true)` has cleared the timer |
| `Lifecycle.StopThenCloseRearms` | UniSoundMiniPlayer.plugin.js:45-53 | a close event after `stop()` leaves a pending retry timer and `disconnected` |
| `Lifecycle.AllPortsRefuse` | UniSoundMiniPlayer.plugin.js:241-261 | start plus five failed sweeps is a possible run; its statuses are connecting, disconnected, seven times connecting, error; it ends with counter 5, no timer, no sweep |
| `Plugin.MiniPlayer.constructor` | UniSoundMiniPlayer.plugin.js:13-30 | starts disconnected, counter 0, no sweep, no timer, no socket, no port, nothing playing, empty cache, default settings; the invariant holds |
| `Plugin.MiniPlayer.Start` | UniSoundMiniPlayer.plugin.js:35-43 | stored settings override the current ones key by key; the counter is reset, then a sweep is launched unless one is in flight or a live socket is held |
| `Plugin.MiniPlayer.FindAndConnect` | UniSoundMiniPlayer.plugin.js:184-193 | no change when a sweep is in flight or a live socket is held; otherwise a sweep is in flight, status `connecting`, counter up by exactly one; nothing else changes |
| `Plugin.MiniPlayer.OnSweepSuccess` | UniSoundMiniPlayer.plugin.js:201-212 | counter 0, port set to the winning one, socket open, `connected`, no sweep in flight, no timer; nothing else changes |
| `Plugin.MiniPlayer.OnSweepFailure` | UniSoundMiniPlayer.plugin.js:241-261 | no sweep in flight; the alert is shown iff the counter reached 5, and then `error` with no timer; below the cap, `disconnected` with a new timer if none was pending, otherwise status and timer unchanged |
| `Plugin.MiniPlayer.Disconnect` | UniSoundMiniPlayer.plugin.js:264-277 | timer cleared, socket and port dropped, `disconnected`; counter reset to 0 exactly when not reconnecting, kept otherwise |
| `Plugin.MiniPlayer.OnClose` | UniSoundMiniPlayer.plugin.js:227-234 | ends with no socket, no port, `disconnected`, counter 0 and a pending timer |
| `Plugin.MiniPlayer.OnError` | UniSoundMiniPlayer.plugin.js:236-239 | only the held socket changes: an open one starts closing |
| `Plugin.MiniPlayer.OnTimerTick` | UniSoundMiniPlayer.plugin.js:259 | a firing timer runs `findAndConnect`, which the invariant allows without passing the cap |
| `Plugin.MiniPlayer.Stop` | UniSoundMiniPlayer.plugin.js:45-53 | disconnects (counter reset) and empties the artwork cache |
| `Plugin.MiniPlayer.SendCommand` | UniSoundMiniPlayer.plugin.js:166-182 | refuses exactly when no port is known, issuing no request; otherwise one POST to `http://127.0.0.1:<port>/api/<action>` with the JSON body, reported as failed iff the network failed |
| `Plugin.MiniPlayer.GetArtworkDataUrl` | UniSoundMiniPlayer.plugin.js:410-431 | returns and stores exactly what `Artwork.Resolve` gives for the old cache |
| `Plugin.MiniPlayer.OnMessage` | UniSoundMiniPlayer.plugin.js:214-225 | an unparsable message changes nothing; otherwise the state is replaced by the message, its track carrying the resolved artwork, and the cache follows `Artwork.Resolve` |
| `Plugin.AllPortsRefuse` | UniSoundMiniPlayer.plugin.js:241-261 | on the object: start and five failed sweeps give the status sequence connecting, disconnected, seven times connecting, error; the alert is shown once and no timer is left |
| `View.RenderCases` | UniSoundMiniPlayer.plugin.js:289-318 | the player is hidden iff `showPlayer` is off or the status is `error`; the track view is selected iff shown, `connected` and a track is known, and then for that track; otherwise the status view with the status line for the state it is drawn from |
| `View.SearchingTextIff` | UniSoundMiniPlayer.plugin.js:398 | a status line reads "Поиск сервера... (n/5)" iff the status is `connecting`, and then it names exactly the count it is drawn with |
| `View.SearchingCountCapped` | UniSoundMiniPlayer.plugin.js:318 | in a reachable state a searching status line counts at most 5 attempts |
| `Artwork.ResolveContract` | UniSoundMiniPlayer.plugin.js:410-431 | an absent or empty URL gives null; a cached URL gives its entry; for an uncached URL a finished read is stored and returned, and a failed or not-ok fetch gives null and leaves the cache alone; no entry is changed or dropped |
| `Artwork.ResolveStable` | UniSoundMiniPlayer.plugin.js:412 | once a URL is cached, resolving it again returns the same value and keeps the cache, whatever a fetch would do |
| `Command.CommandUrlInjective` | UniSoundMiniPlayer.plugin.js:173 | the command URL determines the port and the action |
| `Decimal.LeadingDigitsOf` | UniSoundMiniPlayer.plugin.js:173 | in rendered digits followed by a non-digit, such as the port before `/api/`, the leading digit run is exactly the digits |
| `Decimal.NatToString` | UniSoundMiniPlayer.plugin.js:398 | a number renders as at least one decimal digit, a single one iff it is below 10 |
| `Decimal.DigitsValueOfNatToString` | UniSoundMiniPlayer.plugin.js:398 | reading the rendered digits back gives the number |
| `Decimal.NatToStringInjective` | UniSoundMiniPlayer.plugin.js:398 | different numbers render differently |
| `Media.MergeStored` | UniSoundMiniPlayer.plugin.js:37 | loading a saved settings object restores it exactly |
| `Media.MergeIdempotent` | UniSoundMiniPlayer.plugin.js:37 | loading the same stored keys twice is loading them once; loading nothing keeps the settings |

## Left out

- DOM and CSS: the markup of the player and the settings panel, its placement above or below the panel, `updatePlayerContent`, `createAccountPlayerHTML`, `createControlButtonHTML`, `injectCSS`, `ensureAllPlayersRemoved`. Only the decisions of `ensureAccountPanelPlayer` are modelled (`View.Render`).
- The status line shows the counter as of the last redraw, not the counter itself: `findAndConnect` redraws before it increments the counter, and a failed sweep with a timer pending does not redraw, so after `start()` the line reads "(0/5)" and during retries it shows one less than the counter. The model does not track what is on screen; `View.Render` gives the view for the state it is drawn from.
- An existing track player may keep stale content: `updatePlayerContent` returns early when the title-artist id and the play state are unchanged, so new artwork, or a different title and artist with the same joined id, is not drawn. `View.Render`'s `TrackPanel` is the content the player is meant to show.
- `handleEvents`: the click dispatch from the player's buttons to `sendCommand` is host DOM handling.
- Host API calls: toasts and logging are dropped, the give-up alert is the out-parameter of `OnSweepFailure`, `BdApi.Data.load` is the `StoredSettings` input of `Start`, and saving settings is not modelled.
- WebSocket, `fetch`, `FileReader` and the data-URL conversion are I/O; their outcomes are inputs.
- Concurrency: the `Promise.any` race, sockets that open after the winner (they are never used), and the `await` inside `onmessage` that can let a later message overtake an earlier one. Each event is applied whole, one at a time.
- Timer timing: the five-second period is not modelled, only whether the interval timer is pending; each firing is one `TimerTick` event.
- Socket events are allowed in every state, a superset of when they really arrive, so every invariant is proved for more runs than can happen.
- Server messages that parse but are not objects are treated like unparsable ones.
- Plugin.MiniPlayer.FindAndConnect: requires that it either returns early or the counter is below 5; its only callers are `start()`, which resets the counter first, and the timer, which by the invariant is pending only below the cap.
