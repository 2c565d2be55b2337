/// The controller of src/main.cpp: per-channel state held in fixed-size
/// arrays and updated in place by the button scan, the press handler, the
/// periodic fetch of the running projects and the LED update. The clock, the
/// pin readings, the link state and the fetched response are inputs; the
/// requests written to the socket and the LED levels are outputs.
module TimerTron {
  import opened Clock
  import opened Text
  import opened Protocol
  import opened Debounce

  /** The fetch of the running projects runs at most once per this many milliseconds. */
  const UPDATE_INTERVAL: int := 10000

  /** What one call of the periodic fetch did: nothing because the last fetch
      is too recent, a failed connection, or a request whose response was
      merged. */
  datatype FetchOutcome = TooSoon | ConnectFailed | Fetched

  /** The requests sent for the presses of `pressed`, in order, each built
      from the project's flag before its press. */
  function ToggleRequests(timers: seq<string>, flags: seq<bool>, pressed: seq<nat>): seq<Request>
    requires forall k :: 0 <= k < |pressed| ==> pressed[k] < |timers| && pressed[k] < |flags|
  {
    seq(|pressed|, k requires 0 <= k < |pressed| => Toggle(flags[pressed[k]], timers[pressed[k]]))
  }

  lemma ToggleRequestsAppend(timers: seq<string>, flags: seq<bool>, pressed: seq<nat>, p: nat)
    requires forall k :: 0 <= k < |pressed| ==> pressed[k] < |timers| && pressed[k] < |flags|
    requires p < |timers| && p < |flags|
    ensures ToggleRequests(timers, flags, pressed + [p]) == ToggleRequests(timers, flags, pressed) + [Toggle(flags[p], timers[p])]
  {
  }

  /** The flags after a fetch: the response's verdict for every project when
      the fetch merged it, the flags before otherwise. */
  function AfterFetch(timers: seq<string>, flags: seq<bool>, response: string, fetched: bool): seq<bool>
    requires |flags| == |timers|
  {
    seq(|timers|, i requires 0 <= i < |timers| =>
      if fetched then Contains(response, Quoted(timers[i])) else flags[i])
  }

  /** A merged fetch decides every flag by itself: the flags before it do not
      matter, so merging the same response again changes nothing. */
  lemma FetchIsAuthoritative(timers: seq<string>, flags: seq<bool>, other: seq<bool>, response: string)
    requires |flags| == |other| == |timers|
    ensures AfterFetch(timers, flags, response, true) == AfterFetch(timers, other, response, true)
    ensures AfterFetch(timers, AfterFetch(timers, flags, response, true), response, true)
         == AfterFetch(timers, flags, response, true)
  {
  }

  /** The channels are listed in increasing order, so each at most once. */
  predicate Increasing(s: seq<nat>) {
    forall a, b :: 0 <= a < b < |s| ==> s[a] < s[b]
  }

  /** The channels among the first `n` of one scan whose press sent a toggle:
      those whose edge is a press and whose connection succeeded, in scan
      order. */
  function SentBefore(edges: seq<Edge>, links: seq<bool>, n: nat): (p: seq<nat>)
    requires n <= |edges| && n <= |links|
    ensures forall k :: 0 <= k < |p| ==> p[k] < n
  {
    if n == 0 then []
    else SentBefore(edges, links, n - 1) + (if edges[n - 1] == Pressed && links[n - 1] then [n - 1] else [])
  }

  /** Every channel before `n` with a press and a successful connection is
      listed, once, in increasing order, and no other channel is. */
  lemma {:induction false} SentBeforeExact(edges: seq<Edge>, links: seq<bool>, n: nat)
    requires n <= |edges| && n <= |links|
    ensures Increasing(SentBefore(edges, links, n))
    ensures forall c :: 0 <= c < n ==> (c in SentBefore(edges, links, n) <==> edges[c] == Pressed && links[c])
  {
    if n > 0 {
      SentBeforeExact(edges, links, n - 1);
    }
  }

  /** The requests a scan sends over its first `n` channels, channel `c`'s
      press connecting with outcome `links[c]`: one toggle per press whose
      connection succeeded, in scan order, each built from the project's flag
      before the scan. */
  function ScanRequests(timers: seq<string>, flags: seq<bool>, edges: seq<Edge>, links: seq<bool>, n: nat): seq<Request>
    requires n <= |edges| && n <= |links| && n <= |timers| && n <= |flags|
  {
    if n == 0 then []
    else
      ScanRequests(timers, flags, edges, links, n - 1) +
      (if edges[n - 1] == Pressed && links[n - 1] then [Toggle(flags[n - 1], timers[n - 1])] else [])
  }

  /** The requests of a scan are the toggles of the pressed channels whose
      connection succeeded, in increasing channel order. */
  lemma {:induction false} ScanRequestsArePresses(timers: seq<string>, flags: seq<bool>, edges: seq<Edge>, links: seq<bool>, n: nat)
    requires n <= |edges| && n <= |links| && n <= |timers| && n <= |flags|
    ensures ScanRequests(timers, flags, edges, links, n) == ToggleRequests(timers, flags, SentBefore(edges, links, n))
  {
    if n > 0 {
      ScanRequestsArePresses(timers, flags, edges, links, n - 1);
      if edges[n - 1] == Pressed && links[n - 1] {
        ToggleRequestsAppend(timers, flags, SentBefore(edges, links, n - 1), n - 1);
      }
    }
  }

  /** A scan with no press sends no request, whatever the connections do. */
  lemma {:induction false} NoPressNoRequest(timers: seq<string>, flags: seq<bool>, edges: seq<Edge>, links: seq<bool>, n: nat)
    requires n <= |edges| && n <= |links| && n <= |timers| && n <= |flags|
    requires forall c :: 0 <= c < |edges| ==> edges[c] != Pressed
    ensures ScanRequests(timers, flags, edges, links, n) == []
  {
    if n > 0 {
      NoPressNoRequest(timers, flags, edges, links, n - 1);
    }
  }

  /** The edge of every channel in one scan as written, channel `c` being
      sampled with the clock reads `tChanges[c]`, `tChecks[c]` and `tStamps[c]` of
      its own iteration. */
  function EdgesAsWritten(states: seq<bool>, lasts: seq<Millis>, readings: seq<bool>,
                          tChanges: seq<Millis>, tChecks: seq<Millis>, tStamps: seq<Millis>): seq<Edge>
    requires |states| == |lasts| == |readings| == |tChanges| == |tChecks| == |tStamps|
  {
    seq(|readings|, c requires 0 <= c < |readings| =>
      SampleAsWritten(Channel(states[c], lasts[c]), readings[c], tChanges[c], tChecks[c], tStamps[c]).1)
  }

  /** The edge of every channel in one corrected scan, channel `c` being
      sampled at `nows[c]`. */
  function EdgesDebounced(states: seq<bool>, lastReadings: seq<bool>, lasts: seq<Millis>,
                          readings: seq<bool>, nows: seq<Millis>): seq<Edge>
    requires |states| == |lastReadings| == |lasts| == |readings| == |nows|
  {
    seq(|readings|, c requires 0 <= c < |readings| =>
      SampleDebounced(Debouncer(states[c], lastReadings[c], lasts[c]), readings[c], nows[c]).1)
  }

  /** The flags after a scan with these edges: each flipped exactly on a press. */
  function AfterScan(flags: seq<bool>, edges: seq<Edge>): (r: seq<bool>)
    requires |flags| == |edges|
    ensures |r| == |flags|
    ensures forall c :: 0 <= c < |r| ==> (r[c] != flags[c] <==> edges[c] == Pressed)
  {
    seq(|flags|, c requires 0 <= c < |flags| => flags[c] != (edges[c] == Pressed))
  }

  /** Whatever a scan did, a successful fetch afterwards leaves the flags it
      would have left without the scan: the fetched view wins over every
      press since the last fetch. */
  lemma FetchOverridesScan(timers: seq<string>, flags: seq<bool>, edges: seq<Edge>, response: string)
    requires |flags| == |edges| == |timers|
    ensures AfterFetch(timers, AfterScan(flags, edges), response, true) == AfterFetch(timers, flags, response, true)
  {
  }

  /** After a press, the project's flag is what the toggle sent for it asked
      for: on when the toggle starts the project, off when it stops it. */
  lemma PressedFlagMatchesRequest(host: string, port: string, timers: seq<string>, flags: seq<bool>,
                                  edges: seq<Edge>, c: nat)
    requires |flags| == |edges| == |timers| && c < |edges| && edges[c] == Pressed
    ensures ParseToggleUrl(host, port, Toggle(flags[c], timers[c]).Url(host, port))
         == Some(if AfterScan(flags, edges)[c] then Start(timers[c]) else Stop(timers[c]))
  {
    ToggleUrlRoundTrip(host, port, flags[c], timers[c]);
  }

  /** The channel arrays (`cur`, `curLasts`, `curFlags`) of a scan as
      written that has passed the first `i` channels: each of those holds its
      `SampleAsWritten` result against the snapshot (`states`, `lasts`,
      `flags`) taken before the scan, its flag flipped exactly on a press,
      and the rest still hold the snapshot. */
  predicate Scanned(i: nat, cur: seq<bool>, curLasts: seq<Millis>, curFlags: seq<bool>,
                    states: seq<bool>, lasts: seq<Millis>, flags: seq<bool>,
                    readings: seq<bool>, tChanges: seq<Millis>, tChecks: seq<Millis>, tStamps: seq<Millis>)
    requires |cur| == |curLasts| == |curFlags| == |states| == |lasts| == |flags| == |readings|
    requires |readings| == |tChanges| == |tChecks| == |tStamps|
  {
    i <= |cur| &&
    (forall j :: 0 <= j < i ==>
      var r := SampleAsWritten(Channel(states[j], lasts[j]), readings[j], tChanges[j], tChecks[j], tStamps[j]);
      cur[j] == r.0.state && curLasts[j] == r.0.lastDebounceTime &&
      curFlags[j] == (flags[j] != (r.1 == Pressed))) &&
    (forall j :: i <= j < |cur| ==>
      cur[j] == states[j] && curLasts[j] == lasts[j] && curFlags[j] == flags[j])
  }

  /** The same for a corrected scan, which also keeps the previous raw
      reading of each channel. */
  predicate ScannedDebounced(i: nat, cur: seq<bool>, curPrevious: seq<bool>, curLasts: seq<Millis>, curFlags: seq<bool>,
                             states: seq<bool>, previous: seq<bool>, lasts: seq<Millis>,
                             flags: seq<bool>, readings: seq<bool>, nows: seq<Millis>)
    requires |cur| == |curPrevious| == |curLasts| == |curFlags| == |states| == |previous| == |lasts| == |flags| == |readings|
    requires |readings| == |nows|
  {
    i <= |cur| &&
    (forall j :: 0 <= j < i ==>
      var r := SampleDebounced(Debouncer(states[j], previous[j], lasts[j]), readings[j], nows[j]);
      cur[j] == r.0.state && curPrevious[j] == r.0.lastReading &&
      curLasts[j] == r.0.lastDebounceTime && curFlags[j] == (flags[j] != (r.1 == Pressed))) &&
    (forall j :: i <= j < |cur| ==>
      cur[j] == states[j] && curPrevious[j] == previous[j] &&
      curLasts[j] == lasts[j] && curFlags[j] == flags[j])
  }

  /** Whether the fetched response reports `name` as running: the quoted name
      is searched for once per character of the response, stopping at the
      first hit, so an empty response reports nothing. The search is the same
      every time, so the flag is exactly whether the quoted name occurs. */
  method RunningFlag(response: string, name: string) returns (isRunning: bool)
    ensures isRunning == Contains(response, Quoted(name))
  {
    isRunning := false;
    var j := 0;
    while j < |response|
      invariant 0 <= j <= |response|
      invariant !isRunning
      invariant 0 < j ==> !Contains(response, Quoted(name))
    {
      var projectName := Quoted(name);
      if IndexOf(response, projectName) != -1 {
        isRunning := true;
        break;
      }
      j := j + 1;
    }
    if |response| == 0 {
      NothingInEmpty(Quoted(name));
    }
  }

  class Controller {
    /** The project names, one per channel. */
    const timers: seq<string>
    const numTimers: nat
    /** The time tracker's host and port, from the sketch's secrets. */
    const apiHost: string
    const apiPort: string

    /** The last accepted level of each button (LOW is pressed). */
    const buttonState: array<bool>
    /** Whether each project is believed to be running. */
    const projectIsRunning: array<bool>
    /** The debounce timestamp of each button. */
    const lastDebounceTime: array<Millis>
    /** The level last written to each LED pin. */
    const ledOut: array<bool>
    /** The previous raw reading of each button; used only by the corrected scan. */
    const lastReading: array<bool>

    /** When the running projects were last fetched. */
    var lastUpdateTime: Millis
    /** The blink timer: when the LEDs last changed, and the level they blink to. */
    var previousMillis: Millis
    var ledState: bool

    ghost predicate Valid() {
      numTimers == |timers| &&
      buttonState.Length == numTimers && projectIsRunning.Length == numTimers &&
      lastDebounceTime.Length == numTimers && ledOut.Length == numTimers &&
      lastReading.Length == numTimers &&
      buttonState != projectIsRunning && buttonState != ledOut && buttonState != lastReading &&
      projectIsRunning != ledOut && projectIsRunning != lastReading && ledOut != lastReading
    }

    /** The state at power-up: every flag and level LOW, every timestamp 0. */
    constructor (timers: seq<string>, apiHost: string, apiPort: string)
      ensures Valid()
      ensures this.timers == timers && this.apiHost == apiHost && this.apiPort == apiPort
      ensures fresh(buttonState) && fresh(projectIsRunning) && fresh(lastDebounceTime)
      ensures fresh(ledOut) && fresh(lastReading)
      ensures forall i :: 0 <= i < |timers| ==>
        buttonState[i] == LOW && !projectIsRunning[i] && lastDebounceTime[i] == 0 &&
        ledOut[i] == LOW && lastReading[i] == LOW
      ensures lastUpdateTime == 0 && previousMillis == 0 && ledState == LOW
    {
      this.timers := timers;
      numTimers := |timers|;
      this.apiHost := apiHost;
      this.apiPort := apiPort;
      buttonState := new bool[|timers|](_ => LOW);
      projectIsRunning := new bool[|timers|](_ => false);
      lastDebounceTime := new Millis[|timers|](_ => 0);
      ledOut := new bool[|timers|](_ => LOW);
      lastReading := new bool[|timers|](_ => LOW);
      lastUpdateTime := 0;
      previousMillis := 0;
      ledState := LOW;
    }

    /** Handles a press of `button`: builds the toggle URL from the project's
        current flag, sends the request if the connection succeeds, and then
        flips the flag whether or not it did. */
    method ButtonPressed(button: nat, connected: bool) returns (sent: Option<Request>)
      requires Valid() && button < numTimers
      modifies projectIsRunning
      ensures sent == if connected then Some(Toggle(old(projectIsRunning[button]), timers[button])) else None
      ensures projectIsRunning[..] == old(projectIsRunning[..])[button := !old(projectIsRunning[button])]
    {
      var request := Toggle(projectIsRunning[button], timers[button]);
      if connected {
        sent := Some(request);
      } else {
        sent := None;
      }
      projectIsRunning[button] := !projectIsRunning[button];
    }

    /** One iteration of the scan as written, for channel `i`: the reading
        resets the timestamp when it differs from the stable level; once the
        clock is more than the debounce delay past the timestamp, the
        timestamp is reset again and a differing reading becomes the stable
        level, a LOW one calling the press handler. Only channel i's entries
        change. The clock reads `tChange`, `tCheck` and `tStamp` are those of
        `SampleAsWritten`. */
    method ScanButton(i: nat, reading: bool, tChange: Millis, tCheck: Millis, tStamp: Millis, connected: bool)
      returns (edge: Edge, request: Option<Request>)
      requires Valid() && i < numTimers
      modifies buttonState, lastDebounceTime, projectIsRunning
      ensures var r := SampleAsWritten(Channel(old(buttonState[i]), old(lastDebounceTime[i])), reading, tChange, tCheck, tStamp);
        edge == r.1 && buttonState[i] == r.0.state && lastDebounceTime[i] == r.0.lastDebounceTime
      ensures projectIsRunning[i] == (old(projectIsRunning[i]) != (edge == Pressed))
      ensures request == if edge == Pressed && connected
        then Some(Toggle(old(projectIsRunning[i]), timers[i]))
        else None
      ensures forall j :: 0 <= j < numTimers && j != i ==>
        buttonState[j] == old(buttonState[j]) && lastDebounceTime[j] == old(lastDebounceTime[j]) &&
        projectIsRunning[j] == old(projectIsRunning[j])
    {
      edge, request := NoEdge, None;
      if reading != buttonState[i] {
        lastDebounceTime[i] := tChange;
      }
      if Elapsed(tCheck, lastDebounceTime[i]) > DEBOUNCE_DELAY {
        lastDebounceTime[i] := tStamp;
        if reading != buttonState[i] {
          buttonState[i] := reading;
          edge := EdgeTo(reading);
          if buttonState[i] == LOW {
            request := ButtonPressed(i, connected);
          }
        }
      }
    }

    /** One iteration of the corrected scan, for channel `i`: the timestamp is
        reset when the reading differs from the previous raw reading, and the
        reading is recorded as the previous one at the end. Only channel i's
        entries change. */
    method ScanButtonDebounced(i: nat, reading: bool, now: Millis, connected: bool)
      returns (edge: Edge, request: Option<Request>)
      requires Valid() && i < numTimers
      modifies buttonState, lastReading, lastDebounceTime, projectIsRunning
      ensures var r := SampleDebounced(Debouncer(old(buttonState[i]), old(lastReading[i]), old(lastDebounceTime[i])), reading, now);
        edge == r.1 && buttonState[i] == r.0.state && lastReading[i] == r.0.lastReading &&
        lastDebounceTime[i] == r.0.lastDebounceTime
      ensures projectIsRunning[i] == (old(projectIsRunning[i]) != (edge == Pressed))
      ensures request == if edge == Pressed && connected
        then Some(Toggle(old(projectIsRunning[i]), timers[i]))
        else None
      ensures forall j :: 0 <= j < numTimers && j != i ==>
        buttonState[j] == old(buttonState[j]) && lastReading[j] == old(lastReading[j]) &&
        lastDebounceTime[j] == old(lastDebounceTime[j]) && projectIsRunning[j] == old(projectIsRunning[j])
    {
      edge, request := NoEdge, None;
      if reading != lastReading[i] {
        lastDebounceTime[i] := now;
      }
      if Elapsed(now, lastDebounceTime[i]) > DEBOUNCE_DELAY {
        lastDebounceTime[i] := now;
        if reading != buttonState[i] {
          buttonState[i] := reading;
          edge := EdgeTo(reading);
          if buttonState[i] == LOW {
            request := ButtonPressed(i, connected);
          }
        }
      }
      lastReading[i] := reading;
    }

    /** One pass of the scan's loop as written: channel `i` is scanned with
        its own reading, clock reads and connection outcome, and the request
        it sends, if any, is appended to those sent so far. */
    method ScanStep(i: nat, readings: seq<bool>, tChanges: seq<Millis>, tChecks: seq<Millis>, tStamps: seq<Millis>,
                    links: seq<bool>, ghost states: seq<bool>, ghost lasts: seq<Millis>, ghost flags: seq<bool>,
                    requests: seq<Request>)
      returns (requests': seq<Request>)
      requires Valid() && i < numTimers
      requires |states| == |lasts| == |flags| == |readings| == |tChanges| == |tChecks| == |tStamps| == |links| == numTimers
      requires Scanned(i, buttonState[..], lastDebounceTime[..], projectIsRunning[..], states, lasts, flags, readings, tChanges, tChecks, tStamps)
      requires requests == ScanRequests(timers, flags, EdgesAsWritten(states, lasts, readings, tChanges, tChecks, tStamps), links, i)
      modifies buttonState, lastDebounceTime, projectIsRunning
      ensures Scanned(i + 1, buttonState[..], lastDebounceTime[..], projectIsRunning[..], states, lasts, flags, readings, tChanges, tChecks, tStamps)
      ensures requests' == ScanRequests(timers, flags, EdgesAsWritten(states, lasts, readings, tChanges, tChecks, tStamps), links, i + 1)
    {
      requests' := requests;
      var edge, request := ScanButton(i, readings[i], tChanges[i], tChecks[i], tStamps[i], links[i]);
      if request.Some? {
        requests' := requests + [request.value];
      }
    }

    /** The button scan as written. Channels are scanned in index order;
        channel c is read as `readings[c]`, its iteration's three clock reads
        are `tChanges[c]`, `tChecks[c]` and `tStamps[c]`, and a press it handles
        connects with outcome `links[c]`. Channel c's level and timestamp
        become those of `SampleAsWritten`, and its flag flips exactly when
        that reports a press. The requests sent are the toggles of the
        pressed channels whose connection succeeded, in scan order. */
    method ReadButtons(readings: seq<bool>, tChanges: seq<Millis>, tChecks: seq<Millis>, tStamps: seq<Millis>, links: seq<bool>)
      returns (requests: seq<Request>)
      requires Valid() && |readings| == |tChanges| == |tChecks| == |tStamps| == |links| == numTimers
      modifies buttonState, lastDebounceTime, projectIsRunning
      ensures forall i :: 0 <= i < numTimers ==>
        var r := SampleAsWritten(Channel(old(buttonState[i]), old(lastDebounceTime[i])), readings[i], tChanges[i], tChecks[i], tStamps[i]);
        buttonState[i] == r.0.state && lastDebounceTime[i] == r.0.lastDebounceTime &&
        projectIsRunning[i] == (old(projectIsRunning[i]) != (r.1 == Pressed))
      ensures requests == ScanRequests(timers, old(projectIsRunning[..]),
        EdgesAsWritten(old(buttonState[..]), old(lastDebounceTime[..]), readings, tChanges, tChecks, tStamps), links, numTimers)
    {
      requests := [];
      ghost var states, lasts, flags := buttonState[..], lastDebounceTime[..], projectIsRunning[..];
      var i := 0;
      while i < numTimers
        invariant 0 <= i <= numTimers
        invariant Scanned(i, buttonState[..], lastDebounceTime[..], projectIsRunning[..], states, lasts, flags, readings, tChanges, tChecks, tStamps)
        invariant requests == ScanRequests(timers, flags, EdgesAsWritten(states, lasts, readings, tChanges, tChecks, tStamps), links, i)
      {
        requests := ScanStep(i, readings, tChanges, tChecks, tStamps, links, states, lasts, flags, requests);
        i := i + 1;
      }
    }

    /** One pass of the corrected scan's loop: channel `i` is scanned and the
        request it sends, if any, is appended to those sent so far. */
    method ScanStepDebounced(i: nat, readings: seq<bool>, nows: seq<Millis>, links: seq<bool>,
                             ghost states: seq<bool>, ghost previous: seq<bool>, ghost lasts: seq<Millis>,
                             ghost flags: seq<bool>, requests: seq<Request>)
      returns (requests': seq<Request>)
      requires Valid() && i < numTimers
      requires |states| == |previous| == |lasts| == |flags| == |readings| == |nows| == |links| == numTimers
      requires ScannedDebounced(i, buttonState[..], lastReading[..], lastDebounceTime[..], projectIsRunning[..], states, previous, lasts, flags, readings, nows)
      requires requests == ScanRequests(timers, flags, EdgesDebounced(states, previous, lasts, readings, nows), links, i)
      modifies buttonState, lastReading, lastDebounceTime, projectIsRunning
      ensures ScannedDebounced(i + 1, buttonState[..], lastReading[..], lastDebounceTime[..], projectIsRunning[..], states, previous, lasts, flags, readings, nows)
      ensures requests' == ScanRequests(timers, flags, EdgesDebounced(states, previous, lasts, readings, nows), links, i + 1)
    {
      requests' := requests;
      var edge, request := ScanButtonDebounced(i, readings[i], nows[i], links[i]);
      if request.Some? {
        requests' := requests + [request.value];
      }
    }

    /** The corrected button scan, channel c sampled at `nows[c]` and its
        press connecting with outcome `links[c]`: channel c's level, previous
        reading and timestamp become those of `SampleDebounced`, and its flag
        flips exactly when that reports a press. The requests sent are the
        toggles of the pressed channels whose connection succeeded, in scan
        order. */
    method ReadButtonsDebounced(readings: seq<bool>, nows: seq<Millis>, links: seq<bool>)
      returns (requests: seq<Request>)
      requires Valid() && |readings| == |nows| == |links| == numTimers
      modifies buttonState, lastReading, lastDebounceTime, projectIsRunning
      ensures forall i :: 0 <= i < numTimers ==>
        var r := SampleDebounced(Debouncer(old(buttonState[i]), old(lastReading[i]), old(lastDebounceTime[i])), readings[i], nows[i]);
        buttonState[i] == r.0.state && lastReading[i] == r.0.lastReading &&
        lastDebounceTime[i] == r.0.lastDebounceTime &&
        projectIsRunning[i] == (old(projectIsRunning[i]) != (r.1 == Pressed))
      ensures requests == ScanRequests(timers, old(projectIsRunning[..]),
        EdgesDebounced(old(buttonState[..]), old(lastReading[..]), old(lastDebounceTime[..]), readings, nows), links, numTimers)
    {
      requests := [];
      ghost var states, previous, lasts, flags := buttonState[..], lastReading[..], lastDebounceTime[..], projectIsRunning[..];
      var i := 0;
      while i < numTimers
        invariant 0 <= i <= numTimers
        invariant ScannedDebounced(i, buttonState[..], lastReading[..], lastDebounceTime[..], projectIsRunning[..], states, previous, lasts, flags, readings, nows)
        invariant requests == ScanRequests(timers, flags, EdgesDebounced(states, previous, lasts, readings, nows), links, i)
      {
        requests := ScanStepDebounced(i, readings, nows, links, states, previous, lasts, flags, requests);
        i := i + 1;
      }
    }

    /** Writes every project's flag to its LED: HIGH exactly when the project
        is running. The output depends on the flags alone, so a second call
        with unchanged flags writes the same levels. */
    method UpdateLEDs()
      requires Valid()
      modifies ledOut
      ensures forall i :: 0 <= i < numTimers ==> (ledOut[i] == HIGH <==> projectIsRunning[i])
    {
      var i := 0;
      while i < numTimers
        invariant 0 <= i <= numTimers
        invariant forall j :: 0 <= j < i ==> (ledOut[j] == HIGH <==> projectIsRunning[j])
      {
        ledOut[i] := if projectIsRunning[i] then HIGH else LOW;
        i := i + 1;
      }
    }

    /** The periodic fetch. Called less than the update interval after the
        last one it changes nothing. Otherwise it records `now` as the time of
        the fetch, even when the connection then fails; a failed connection
        leaves every flag as it was, and a successful one overwrites every
        flag with whether the project's quoted name occurs in the response. */
    method FetchAndUpdateTimers(now: Millis, connected: bool, response: string) returns (outcome: FetchOutcome)
      requires Valid()
      modifies this`lastUpdateTime, projectIsRunning
      ensures outcome == TooSoon <==> Elapsed(now, old(lastUpdateTime)) < UPDATE_INTERVAL
      ensures outcome == TooSoon ==> lastUpdateTime == old(lastUpdateTime)
      ensures outcome != TooSoon ==> lastUpdateTime == now
      ensures outcome != TooSoon ==> (outcome == ConnectFailed <==> !connected)
      ensures !outcome.Fetched? ==> projectIsRunning[..] == old(projectIsRunning[..])
      ensures outcome.Fetched? ==> forall i :: 0 <= i < numTimers ==>
        projectIsRunning[i] == Contains(response, Quoted(timers[i]))
    {
      if Elapsed(now, lastUpdateTime) < UPDATE_INTERVAL {
        return TooSoon;
      }
      lastUpdateTime := now;
      if !connected {
        return ConnectFailed;
      }
      outcome := Fetched;
      var i := 0;
      while i < numTimers
        invariant 0 <= i <= numTimers
        invariant forall j :: 0 <= j < i ==> projectIsRunning[j] == Contains(response, Quoted(timers[j]))
        modifies projectIsRunning
      {
        var isRunning := RunningFlag(response, timers[i]);
        projectIsRunning[i] := isRunning;
        i := i + 1;
      }
    }

    /** The blink timer: once at least `delayTime` has passed since the last
        change, the blink level flips, `now` becomes the time of the change
        and every LED is set to the new level; otherwise nothing changes. */
    method BlinkLEDs(delayTime: Millis, now: Millis)
      requires Valid()
      modifies this`previousMillis, this`ledState, ledOut
      ensures Elapsed(now, old(previousMillis)) >= delayTime ==>
        previousMillis == now && ledState == !old(ledState) &&
        forall i :: 0 <= i < numTimers ==> ledOut[i] == ledState
      ensures Elapsed(now, old(previousMillis)) < delayTime ==>
        previousMillis == old(previousMillis) && ledState == old(ledState) && ledOut[..] == old(ledOut[..])
    {
      if Elapsed(now, previousMillis) >= delayTime {
        previousMillis := now;
        ledState := !ledState;
        var i := 0;
        while i < numTimers
          invariant 0 <= i <= numTimers
          invariant forall j :: 0 <= j < i ==> ledOut[j] == ledState
          modifies ledOut
        {
          ledOut[i] := ledState;
          i := i + 1;
        }
      }
    }

    /** One pass of the main loop as written: the fetch at `now`, the button
        scan and the LED update. Each iteration of the scan reads the clock
        three times with no waiting in between, so each is taken at one clock
        value, `nows[c]` for channel c. The scan then never accepts a change:
        a reading that differs from the stable level only restamps the
        channel, no press is handled and no toggle is sent, and only the
        fetch changes the flags, which the LEDs show. */
    method Loop(now: Millis, connected: bool, response: string,
                readings: seq<bool>, nows: seq<Millis>, links: seq<bool>)
      returns (outcome: FetchOutcome, requests: seq<Request>)
      requires Valid() && |readings| == |nows| == |links| == numTimers
      modifies this`lastUpdateTime, buttonState, lastDebounceTime, projectIsRunning, ledOut
      ensures outcome == TooSoon <==> Elapsed(now, old(lastUpdateTime)) < UPDATE_INTERVAL
      ensures outcome != TooSoon ==> (outcome == ConnectFailed <==> !connected)
      ensures lastUpdateTime == if outcome == TooSoon then old(lastUpdateTime) else now
      ensures requests == []
      ensures buttonState[..] == old(buttonState[..])
      ensures forall i :: 0 <= i < numTimers ==>
        lastDebounceTime[i] ==
          if readings[i] != old(buttonState[i]) then nows[i]
          else if Elapsed(nows[i], old(lastDebounceTime[i])) > DEBOUNCE_DELAY then nows[i]
          else old(lastDebounceTime[i])
      ensures projectIsRunning[..] == AfterFetch(timers, old(projectIsRunning[..]), response, outcome.Fetched?)
      ensures forall i :: 0 <= i < numTimers ==> (ledOut[i] == HIGH <==> projectIsRunning[i])
    {
      outcome := FetchAndUpdateTimers(now, connected, response);
      ghost var edges := EdgesAsWritten(buttonState[..], lastDebounceTime[..], readings, nows, nows, nows);
      ghost var flags := projectIsRunning[..];
      requests := ReadButtons(readings, nows, nows, nows, links);
      NoPressNoRequest(timers, flags, edges, links, numTimers);
      UpdateLEDs();
    }

    /** One pass of the main loop with the corrected scan: after the fetch at
        `now`, each accepted press flips the flag the fetch left and, if its
        connection succeeds, sends the toggle built from that flag; the LEDs
        then show the flags. */
    method LoopDebounced(now: Millis, connected: bool, response: string,
                         readings: seq<bool>, nows: seq<Millis>, links: seq<bool>)
      returns (outcome: FetchOutcome, requests: seq<Request>)
      requires Valid() && |readings| == |nows| == |links| == numTimers
      modifies this`lastUpdateTime, buttonState, lastReading, lastDebounceTime, projectIsRunning, ledOut
      ensures outcome == TooSoon <==> Elapsed(now, old(lastUpdateTime)) < UPDATE_INTERVAL
      ensures outcome != TooSoon ==> (outcome == ConnectFailed <==> !connected)
      ensures lastUpdateTime == if outcome == TooSoon then old(lastUpdateTime) else now
      ensures forall i :: 0 <= i < numTimers ==>
        var d := SampleDebounced(Debouncer(old(buttonState[i]), old(lastReading[i]), old(lastDebounceTime[i])), readings[i], nows[i]).0;
        buttonState[i] == d.state && lastReading[i] == d.lastReading && lastDebounceTime[i] == d.lastDebounceTime
      ensures var edges := EdgesDebounced(old(buttonState[..]), old(lastReading[..]), old(lastDebounceTime[..]), readings, nows);
        var merged := AfterFetch(timers, old(projectIsRunning[..]), response, outcome.Fetched?);
        projectIsRunning[..] == AfterScan(merged, edges) &&
        requests == ScanRequests(timers, merged, edges, links, numTimers)
      ensures forall i :: 0 <= i < numTimers ==> (ledOut[i] == HIGH <==> projectIsRunning[i])
    {
      outcome := FetchAndUpdateTimers(now, connected, response);
      assert projectIsRunning[..] == AfterFetch(timers, old(projectIsRunning[..]), response, outcome.Fetched?);
      requests := ReadButtonsDebounced(readings, nows, links);
      UpdateLEDs();
    }
  }
}
