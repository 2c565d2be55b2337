/// Per-channel button debouncing. The pins are wired with pull-ups, so a
/// pressed button reads LOW. A channel keeps the last accepted (stable) level
/// and a timestamp; a new reading is accepted as a transition once the
/// debounce delay has passed.
///
/// Two versions are modelled: the scan of src/main.cpp as written, in which a
/// change resets the timestamp at the very moment it is seen and so can only
/// be accepted if more than 50 ms pass between two adjacent clock reads; and
/// the corrected scan, which compares the reading with the previous raw
/// reading (not with the stable level) before resetting the timestamp.
module Debounce {
  import opened Clock

  const DEBOUNCE_DELAY: int := 50
  const LOW: bool := false
  const HIGH: bool := true

  /** What one sample of one channel produces: nothing, an accepted transition
      to LOW (a press, which calls `buttonPressed`) or an accepted transition
      to HIGH (a release, which only updates the stable level). */
  datatype Edge = NoEdge | Pressed | Released

  /** The edge of an accepted transition to `level`. */
  function EdgeTo(level: bool): Edge {
    if level == LOW then Pressed else Released
  }

  /** A raw reading of a button pin and the value of the clock when it was taken. */
  datatype Reading = Reading(level: bool, at: Millis)

  // ---------------------------------------------------------------------------
  // As written

  /** The state the sketch keeps per channel: `buttonState[i]` and `lastDebounceTime[i]`. */
  datatype Channel = Channel(state: bool, lastDebounceTime: Millis)

  /** One iteration of the scan for one channel, with the three clock reads
      of the iteration in the order they are taken: `tChange`, the read that
      stamps a reading differing from the stable level (line 133 of
      src/main.cpp); `tCheck`, the read the debounce test measures against
      (line 135); and `tStamp`, the read that restamps the channel once the
      test passes (line 137). A transition is accepted
      exactly when the reading differs from the stable level and more than
      the debounce delay passed between the first two clock reads: the
      timestamp kept from earlier samples plays no part in it. */
  function SampleAsWritten(ch: Channel, reading: bool, tChange: Millis, tCheck: Millis, tStamp: Millis): (r: (Channel, Edge))
    ensures r.1 != NoEdge <==> reading != ch.state && Elapsed(tCheck, tChange) > DEBOUNCE_DELAY
    ensures r.1 != NoEdge ==> r.1 == EdgeTo(reading) && r.0.state == reading
    ensures r.1 == NoEdge ==> r.0.state == ch.state
    ensures reading != ch.state && r.1 == NoEdge ==> r.0.lastDebounceTime == tChange
    ensures r.1 != NoEdge ==> r.0.lastDebounceTime == tStamp
    ensures reading == ch.state ==>
      r.0.lastDebounceTime == (if Elapsed(tCheck, ch.lastDebounceTime) > DEBOUNCE_DELAY then tStamp else ch.lastDebounceTime)
  {
    var last := if reading != ch.state then tChange else ch.lastDebounceTime;
    if Elapsed(tCheck, last) > DEBOUNCE_DELAY then
      if reading != ch.state then (Channel(reading, tStamp), EdgeTo(reading))
      else (Channel(ch.state, tStamp), NoEdge)
    else (Channel(ch.state, last), NoEdge)
  }

  /** The edges that are not NoEdge, in order. */
  function Accepted(e: Edge): seq<Edge> {
    if e == NoEdge then [] else [e]
  }

  /** Feeds a sequence of readings to one channel as written, each reading
      taken at a single clock value. */
  function RunAsWritten(ch: Channel, rs: seq<Reading>): (Channel, seq<Edge>)
    decreases |rs|
  {
    if rs == [] then (ch, [])
    else
      var (next, e) := SampleAsWritten(ch, rs[0].level, rs[0].at, rs[0].at, rs[0].at);
      var (last, es) := RunAsWritten(next, rs[1..]);
      (last, Accepted(e) + es)
  }

  /** As written, with one clock value per reading, no change of level is ever
      accepted, however long it is held: the stable level never moves and no
      press ever reaches `buttonPressed`. */
  lemma {:induction false} AsWrittenIgnoresEveryChange(ch: Channel, rs: seq<Reading>)
    ensures RunAsWritten(ch, rs).1 == []
    ensures RunAsWritten(ch, rs).0.state == ch.state
    decreases |rs|
  {
    if rs != [] {
      var next := SampleAsWritten(ch, rs[0].level, rs[0].at, rs[0].at, rs[0].at).0;
      AsWrittenIgnoresEveryChange(next, rs[1..]);
    }
  }

  /** A press, the readings held LOW from a released channel whose last raw
      reading was HIGH, is not reported as written, however long it is held. */
  lemma {:induction false} AsWrittenMissesHeldPress(ch: Channel, rs: seq<Reading>)
    requires ch.state == HIGH
    requires forall k :: 0 <= k < |rs| ==> rs[k].level == LOW
    requires rs != [] && Elapsed(rs[|rs| - 1].at, rs[0].at) > DEBOUNCE_DELAY
    ensures RunAsWritten(ch, rs).1 == []
    ensures RunAsWritten(ch, rs).0.state == HIGH
  {
    AsWrittenIgnoresEveryChange(ch, rs);
  }

  // ---------------------------------------------------------------------------
  // Corrected

  /** The corrected per-channel state: the stable level, the previous raw
      reading and the time the raw reading last changed. */
  datatype Debouncer = Debouncer(state: bool, lastReading: bool, lastDebounceTime: Millis)

  /** One iteration of the corrected scan for one channel. A transition is
      accepted exactly when the reading differs from the stable level, equals
      the previous raw reading, and the raw reading last changed more than the
      debounce delay ago. */
  function SampleDebounced(d: Debouncer, reading: bool, now: Millis): (r: (Debouncer, Edge))
    ensures r.1 != NoEdge <==>
      reading != d.state && reading == d.lastReading && Elapsed(now, d.lastDebounceTime) > DEBOUNCE_DELAY
    ensures r.1 != NoEdge ==> r.1 == EdgeTo(reading) && r.0.state == reading
    ensures r.1 == NoEdge ==> r.0.state == d.state
    ensures r.0.lastReading == reading
    ensures reading != d.lastReading ==> r.0.lastDebounceTime == now
    ensures reading == d.lastReading ==>
      r.0.lastDebounceTime == (if Elapsed(now, d.lastDebounceTime) > DEBOUNCE_DELAY then now else d.lastDebounceTime)
  {
    var last := if reading != d.lastReading then now else d.lastDebounceTime;
    if Elapsed(now, last) > DEBOUNCE_DELAY then
      if reading != d.state then (Debouncer(reading, reading, now), EdgeTo(reading))
      else (Debouncer(d.state, reading, now), NoEdge)
    else (Debouncer(d.state, reading, last), NoEdge)
  }

  /** Feeds a sequence of readings to one corrected channel. */
  function Run(d: Debouncer, rs: seq<Reading>): (Debouncer, seq<Edge>)
    decreases |rs|
  {
    if rs == [] then (d, [])
    else
      var (next, e) := SampleDebounced(d, rs[0].level, rs[0].at);
      var (last, es) := Run(next, rs[1..]);
      (last, Accepted(e) + es)
  }

  /** Starting from stable `level`, the edges alternate: a press only from
      HIGH, a release only from LOW. */
  predicate Alternating(level: bool, edges: seq<Edge>)
    decreases |edges|
  {
    edges == [] || (edges[0] == EdgeTo(!level) && Alternating(!level, edges[1..]))
  }

  /** Presses and releases alternate, so a press is reported at most once
      until the button has been seen released again; the final stable level
      is the one the last edge moved to. */
  lemma {:induction false} EdgesAlternate(d: Debouncer, rs: seq<Reading>)
    ensures Alternating(d.state, Run(d, rs).1)
    ensures Run(d, rs).0.state == if |Run(d, rs).1| % 2 == 0 then d.state else !d.state
    decreases |rs|
  {
    if rs != [] {
      var (next, e) := SampleDebounced(d, rs[0].level, rs[0].at);
      EdgesAlternate(next, rs[1..]);
      var es := Run(next, rs[1..]).1;
      if e != NoEdge {
        assert next.state == !d.state && e == EdgeTo(!d.state);
        assert Run(d, rs).1 == [e] + es && ([e] + es)[1..] == es;
      } else {
        assert Run(d, rs).1 == [] + es == es;
      }
    }
  }

  /** A button held at one level yields at most one edge, however many
      samples are taken. */
  lemma {:induction false} HeldLevelGivesOneEdge(d: Debouncer, rs: seq<Reading>, level: bool)
    requires forall k :: 0 <= k < |rs| ==> rs[k].level == level
    ensures Run(d, rs).1 == [] || Run(d, rs).1 == [EdgeTo(level)]
    ensures Run(d, rs).1 != [] ==> d.state != level
    decreases |rs|
  {
    if rs != [] {
      var (next, e) := SampleDebounced(d, rs[0].level, rs[0].at);
      HeldLevelGivesOneEdge(next, rs[1..], level);
      if e != NoEdge {
        NoEdgeWhenSettled(next, rs[1..], level);
      }
    }
  }

  /** Once the stable level equals the level the button is held at, no
      further edge is reported. */
  lemma {:induction false} NoEdgeWhenSettled(d: Debouncer, rs: seq<Reading>, level: bool)
    requires d.state == level
    requires forall k :: 0 <= k < |rs| ==> rs[k].level == level
    ensures Run(d, rs).1 == []
    ensures Run(d, rs).0.state == level
    decreases |rs|
  {
    if rs != [] {
      var next := SampleDebounced(d, rs[0].level, rs[0].at).0;
      NoEdgeWhenSettled(next, rs[1..], level);
    }
  }

  /** Contact bounce, a reading that differs from the one before it at every
      sample, is never accepted. */
  lemma {:induction false} BouncesAreFiltered(d: Debouncer, rs: seq<Reading>)
    requires rs != [] ==> rs[0].level != d.lastReading
    requires forall k :: 0 < k < |rs| ==> rs[k].level != rs[k - 1].level
    ensures Run(d, rs).1 == []
    ensures Run(d, rs).0.state == d.state
    decreases |rs|
  {
    if rs != [] {
      var next := SampleDebounced(d, rs[0].level, rs[0].at).0;
      BouncesAreFiltered(next, rs[1..]);
    }
  }

  /** A channel whose raw reading changed to `level` at `t0` and has stayed
      there reports the edge to `level` exactly once, provided the last
      sample comes more than the debounce delay after `t0`. */
  lemma {:induction false} HeldSinceChangeIsReported(d: Debouncer, rs: seq<Reading>, level: bool, t0: Millis)
    requires d.state != level && d.lastReading == level && d.lastDebounceTime == t0
    requires forall k :: 0 <= k < |rs| ==> rs[k].level == level
    requires rs != [] && Elapsed(rs[|rs| - 1].at, t0) > DEBOUNCE_DELAY
    ensures Run(d, rs).1 == [EdgeTo(level)]
    ensures Run(d, rs).0.state == level
    decreases |rs|
  {
    var (next, e) := SampleDebounced(d, rs[0].level, rs[0].at);
    if e != NoEdge {
      NoEdgeWhenSettled(next, rs[1..], level);
    } else {
      assert next == Debouncer(d.state, level, t0);
      assert |rs| > 1;
      assert rs[1..][|rs[1..]| - 1] == rs[|rs| - 1];
      HeldSinceChangeIsReported(next, rs[1..], level, t0);
    }
  }

  /** The case the sketch misses: a button that changes from its stable level
      and is then held at the new level for more than the debounce delay
      yields exactly one edge, so a held press is reported once. */
  lemma {:induction false} HeldPressIsReported(d: Debouncer, rs: seq<Reading>, level: bool)
    requires d.state != level && d.lastReading != level
    requires forall k :: 0 <= k < |rs| ==> rs[k].level == level
    requires rs != [] && Elapsed(rs[|rs| - 1].at, rs[0].at) > DEBOUNCE_DELAY
    ensures Run(d, rs).1 == [EdgeTo(level)]
    ensures Run(d, rs).0.state == level
  {
    var next := SampleDebounced(d, rs[0].level, rs[0].at).0;
    assert next == Debouncer(d.state, level, rs[0].at);
    assert |rs| > 1;
    assert rs[1..][|rs[1..]| - 1] == rs[|rs| - 1];
    HeldSinceChangeIsReported(next, rs[1..], level, rs[0].at);
  }
}
