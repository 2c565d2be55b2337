# Timer-Tron button box

This is a model of the controller of the Timer-Tron button box, `src/main.cpp`. The sketch is an Arduino loop. It drives one push button and one LED per project and talks to a remote time tracker. Each project's button starts or stops its timer. The LEDs show which projects the box believes are running.

State is kept per channel in fixed-size arrays:
- `buttonState`: the stable level of the button
- `lastDebounceTime`: the debounce timestamp
- `projectIsRunning`: whether the project is believed to be running
- the LED outputs

Each pass of the main loop does three things:
1. At most once every ten seconds it tries to fetch the list of running projects. If the connection succeeds, every flag is overwritten from the list. If it fails, the flags stay as they were, and the next attempt still waits the full ten seconds.
2. It scans the buttons. An accepted press sends a `/start` or `/stop` request and then flips the project's flag.
3. It copies the flags to the LEDs.

A blink timer can also toggle every LED.

The model is a `Controller` class (module `TimerTron`, `controller.dfy`):
- The per-channel arrays are `array`s that the methods update in place, with loops that carry their invariants.
- The timers are fields.
- The clock, the pin readings, whether the connection to the tracker succeeds and the text of the fetched response are inputs.
- The requests sent and the LED levels are outputs.

The supporting modules:
- `Clock` (`clock.dfy`): the 32-bit `millis()` clock, with wrap-around subtraction.
- `Text` (`text.dfy`): `String::indexOf` and the substring predicate.
- `Protocol` (`protocol.dfy`): the URLs, the HTTP request text and the quoted project name.
- `Debounce` (`debounce.dfy`): one channel's debounce step, both as written and corrected.
- `Scenario` (`scenario.dfy`): one end-to-end case, in which the fetched list overrides a press.

The scan is modelled twice:
- As written. The scan compares each reading with the *stable* level. A change resets the timestamp at the very clock read where it is seen. So a change is accepted only if more than 50 ms pass between two clock reads of the same iteration, and with one clock value per pass no press is ever handled. This matches the sketch's own note that "the buttons are not working".
- Corrected. The scan compares each reading with the previous *raw* reading. The corrected scan `ReadButtonsDebounced` is proved against `SampleDebounced`, `EdgesDebounced` and `ScanRequests`. The corrected loop `LoopDebounced` is proved against those and also `AfterScan` and `AfterFetch`. The scan as written, `ReadButtons`, is proved against `SampleAsWritten`, `EdgesAsWritten` and `ScanRequests`. The loop as written, `Loop`, is proved against those and `AfterFetch`.

## Behaviour worth noting

- The flag of a pressed project is flipped *after* the request is sent, not before (line 118).
- A press whose connection fails still flips the flag. No request is sent for it.
- The fetch records its time before it connects (line 168). A failed connection therefore delays the next attempt by the full interval.
- The code keeps no per-channel record of unconfirmed presses. The next successful fetch overwrites every flag, whatever the presses since the last fetch did.
- Fetched projects are recognised by a substring search for the quoted name, not by parsing.

## Model

| member | source | states |
|---|---|---|
| Clock.Elapsed | src/main.cpp:42 | `millis() - since` on `unsigned long`: the time since `since`, counting one wrap-around when the clock has wrapped; zero exactly when both are equal |
| Text.IndexOfFrom | src/main.cpp:197 | the first position at or after `from` where the text occurs, or -1 exactly when it occurs at no such position |
| Text.IndexOf | src/main.cpp:197 | `indexOf` is -1 exactly when the text is not a substring or the searched text is empty, otherwise the first position where it occurs |
| Protocol.ToggleUrlRoundTrip | src/main.cpp:88-89 | the URL built on a press asks to stop the project exactly when it was running before the press, to start it otherwise, and names the pressed project |
| Protocol.HttpGetLayout | src/main.cpp:174-176 | a GET request for any URL opens with `GET`, that URL and `HTTP/1.1`, followed by a `Host` header naming the host |
| Protocol.RequestLineCarriesUrl | src/main.cpp:98-101 | the text written to the socket opens with `GET`, the request's URL and `HTTP/1.1`, followed by a `Host` header naming the host |
| Protocol.QuotedNamesDistinct | src/main.cpp:196-197 | searching for a quoted name does not match a different quote-free name that contains it (e.g. "Bank" inside "KraftBank") |
| Debounce.SampleAsWritten | src/main.cpp:130-146 | one channel as written: a transition is accepted exactly when the reading differs from the stable level and more than 50 ms pass between the clock reads at lines 133 and 135; a change to LOW is a press; otherwise the stable level stays. A differing reading that is not accepted leaves the timestamp at the line-133 read; an accepted one, or an unchanged reading whose timestamp is more than 50 ms old, stamps it with the line-137 read; otherwise the timestamp stays |
| Debounce.AsWrittenIgnoresEveryChange | src/main.cpp:130-146 | with one clock value per sample, no reading sequence ever yields an edge or changes the stable level |
| Debounce.AsWrittenMissesHeldPress | src/main.cpp:131-135 | readings held LOW on a released channel are never reported as written, however long they are held past the debounce delay |
| Debounce.SampleDebounced | src/main.cpp:130-146 | corrected channel step: a transition is accepted exactly when the reading differs from the stable level, equals the previous raw reading, and the raw reading has been unchanged for more than 50 ms; a change of raw reading restamps the channel with the clock |
| Debounce.EdgesAlternate | src/main.cpp:138-144 | corrected scan: presses and releases alternate from the initial stable level, and the final level follows the parity of the edge count |
| Debounce.HeldLevelGivesOneEdge | src/main.cpp:138-144 | a button held at one level gives at most one edge, toward that level, and only if the stable level differed |
| Debounce.NoEdgeWhenSettled | src/main.cpp:138-144 | once the stable level equals the held level, no further edge is reported |
| Debounce.BouncesAreFiltered | src/main.cpp:122 | readings that change at every sample (contact bounce) are never accepted |
| Debounce.HeldSinceChangeIsReported | src/main.cpp:122-146 | with the correction, a channel whose raw reading changed at `t0` and stays there reports the edge exactly once when the last sample is more than 50 ms after `t0` |
| Debounce.HeldPressIsReported | src/main.cpp:122-146 | with the correction, a button that leaves its stable level and is held at the new level over samples spanning more than the debounce delay yields exactly one edge, toward that level; the stable level ends there |
| TimerTron.SentBefore | src/main.cpp:128-144 | the channels among the first `n` of one scan whose press sent a toggle, all below `n` |
| TimerTron.SentBeforeExact | src/main.cpp:128-144 | those channels are listed in increasing scan order, each once, and a channel is listed exactly when its edge is a press and its connection succeeded |
| TimerTron.ScanRequestsArePresses | src/main.cpp:128-144 | the requests of a scan are one toggle per pressed channel whose connection succeeded, in scan order, each built from that project's flag before the scan |
| TimerTron.NoPressNoRequest | src/main.cpp:141-144 | a scan with no accepted press sends nothing, whatever the connections do |
| TimerTron.PressedFlagMatchesRequest | src/main.cpp:88-118 | after a press, the project's flag is what the toggle sent for it asked for: on when it asks to start the project, off when it asks to stop it |
| TimerTron.FetchOverridesScan | src/main.cpp:191-205 | whatever presses a scan handled, a successful fetch afterwards leaves exactly the flags it would have left without them |
| TimerTron.FetchIsAuthoritative | src/main.cpp:191-205 | a merged fetch decides every flag whatever the flags were before it, so merging the same response again changes nothing |
| TimerTron.RunningFlag | src/main.cpp:193-202 | the per-project search loop reports running exactly when the quoted name occurs in the response, including an empty response |
| TimerTron.Controller.constructor | src/main.cpp:19-20 | at power-up every level, flag, LED and timestamp is LOW or 0, including `lastDebounceTime` (line 123), `lastUpdateTime` (line 159) and the blink state (lines 39-40) |
| TimerTron.Controller.ButtonPressed | src/main.cpp:83-119 | the request toggles the project by its flag before the press and is sent only if the connection succeeds; the flag flips afterwards in either case and every other flag is unchanged |
| TimerTron.Controller.ScanButton | src/main.cpp:130-146 | one channel of the scan as written: the new level and timestamp are those of `SampleAsWritten`, the flag flips exactly on a press, a request is sent only for a connected press, and no other channel changes |
| TimerTron.Controller.ScanButtonDebounced | src/main.cpp:130-146 | the same for the corrected channel step, which also records the raw reading |
| TimerTron.Controller.ScanStep | src/main.cpp:128-147 | one loop pass of the scan as written keeps the scan invariant: the channels before it hold their sampled state, the rest are untouched, and the requests sent are those of the presses so far |
| TimerTron.Controller.ScanStepDebounced | src/main.cpp:128-147 | the same for the corrected scan |
| TimerTron.Controller.ReadButtons | src/main.cpp:126-148 | each channel is scanned with its own reading, its own three clock reads and, for a press, its own connection outcome; afterwards each holds its `SampleAsWritten` level and timestamp against the state before the scan, its flag flipped exactly on a press, and the requests are the toggles of the pressed channels whose connection succeeded, in index order |
| TimerTron.Controller.ReadButtonsDebounced | src/main.cpp:126-148 | the same for the corrected scan, against `SampleDebounced`, with one clock value per channel |
| TimerTron.Controller.UpdateLEDs | src/main.cpp:151-157 | every LED is HIGH exactly when its project is running, so with unchanged flags a second call writes the same levels |
| TimerTron.Controller.FetchAndUpdateTimers | src/main.cpp:161-206 | within 10 000 ms of the last fetch nothing changes; otherwise the time is recorded even if connecting fails, a failed connection leaves every flag alone, and a successful one sets every flag to whether the quoted name occurs in the response |
| TimerTron.Controller.BlinkLEDs | src/main.cpp:37-51 | once at least `delayTime` has passed, the blink level flips, the time is recorded and every LED shows the new level; otherwise nothing changes |
| TimerTron.Controller.Loop | src/main.cpp:209-215 | the loop as written, each scan iteration at one clock value: the fetch behaves as above; no stable level changes; a channel whose reading differs from its level is stamped with the clock, an unchanged one is restamped only once its timestamp is more than 50 ms old; no toggle is sent; the flags are exactly the fetch's result and the LEDs show them |
| TimerTron.Controller.LoopDebounced | src/main.cpp:209-215 | the loop with the corrected scan: the flags are those the fetch left, each flipped exactly on an accepted press; the toggles are built from those flags for the presses whose connection succeeded, in index order; the LEDs show the final flags |
| Scenario.OnlyAReported | src/main.cpp:196-197 | the response `["A"]` reports A as running and neither B nor C |
| Scenario.SnapshotWins | src/main.cpp:191-205 | three channels from power-up: the passes in which the buttons settle report only releases; the next pass, B held down, reports a press of B alone, which flips only B's flag and sends only "start B"; a fetch then reporting only A overrides that flip (A on, B and C off) |

## Left out

- `connectToWiFi` (src/main.cpp:52-79) is not part of this model. Wi-Fi association, its retry loop and timeout, and the blink calls it makes are network plumbing. The link state is folded into the `connected` input.
- The socket work of `buttonPressed` and `fetchAndUpdateTimers` (src/main.cpp:94-115, 171-189) is not modelled. Connecting, writing and reading are blocking I/O. `connected` is the result of `client.connect` and `response` is the text read back. The request text is given by `Request.Text`, not emitted.
- `Serial` logging, `setup`/`pinMode` and the `ArduinoJson` and `secrets.h` includes are not modelled. They have no effect on the state. `API_HOST` and `API_PORT` are constant strings of the controller.
- `digitalRead` and `digitalWrite` become the `readings` input and the `ledOut` array. The pin numbers are not modelled.
- TimerTron.Controller.Loop: the three clock reads of one scan iteration (lines 133, 135 and 137) are taken to return the same value, `nows[c]` for channel c. Nothing blocks between them. Iterations whose reads straddle a clock tick are covered by `ReadButtons`, which takes the three reads of every channel separately.
- TimerTron.Controller.ReadButtonsDebounced and TimerTron.Controller.LoopDebounced: the corrected scan reads the clock once per channel, `nows[c]`.
- The clock values of successive channels and passes are independent inputs. The model does not require them to increase, and it does not relate them to the time a blocking press takes.
- TimerTron.Controller.FetchAndUpdateTimers: the two clock reads at lines 164 and 168 are one value `now`.
- TimerTron.Controller.BlinkLEDs: the two clock reads at lines 42 and 44 are one value `now`.
- `String` handling is modelled as `seq<char>`. Embedded NUL characters and out-of-memory behaviour of Arduino `String` are not modelled.

## Findings

| source | as written | input that shows it | evidently intended | confidence | as-written member | corrected member |
|---|---|---|---|---|---|---|
| src/main.cpp:131-135 | the reading is compared with the stable level `buttonState[i]`, so a change resets `lastDebounceTime[i]` at the moment it is seen, and the check at line 135 then measures only the time between two adjacent clock reads | any scan iteration whose three clock reads return the same value; e.g. a released channel (level HIGH) whose button reads LOW at every pass from 0 ms to 100 ms: no press is ever reported | compare the reading with the previous raw reading, so that a change held for more than 50 ms is accepted | not executed | Debounce.AsWrittenMissesHeldPress | Debounce.HeldPressIsReported |
