/// An end-to-end case, stated on the functions that specify the corrected
/// scan and the fetch: the fetched view of the running projects overrides a
/// flag that a press has just flipped.
module Scenario {
  import opened Clock
  import opened Text
  import opened Debounce
  import opened Protocol
  import opened TimerTron

  /** The response of the scenario's fetch names A and no other project. */
  lemma OnlyAReported()
    ensures Contains("[\"A\"]", Quoted("A"))
    ensures !Contains("[\"A\"]", Quoted("B")) && !Contains("[\"A\"]", Quoted("C"))
  {
    var s := "[\"A\"]";
    assert OccursAt(s, Quoted("A"), 1);
    forall k: nat | k <= |s|
      ensures !OccursAt(s, Quoted("B"), k) && !OccursAt(s, Quoted("C"), k)
    {
      if k + 3 <= |s| {
        assert s[k + 1] != 'B' && s[k + 1] != 'C';
        assert Quoted("B")[1] == 'B' && Quoted("C")[1] == 'C';
      }
    }
  }

  /** The state of every channel at power-up: level LOW, timestamp 0. */
  const PowerUp: Debouncer := Debouncer(LOW, LOW, 0)

  /** A and C over the first three passes: their buttons settle at HIGH. */
  const Settling: seq<Reading> := [Reading(HIGH, 100), Reading(HIGH, 200), Reading(HIGH, 300)]

  /** B over the first three passes: its button settles at HIGH and then goes down. */
  const GoingDown: seq<Reading> := [Reading(HIGH, 100), Reading(HIGH, 200), Reading(LOW, 300)]

  /** Channels A, B and C after the first three passes. */
  function Channels(): seq<Debouncer> {
    [Run(PowerUp, Settling).0, Run(PowerUp, GoingDown).0, Run(PowerUp, Settling).0]
  }

  function States(cs: seq<Debouncer>): seq<bool> {
    seq(|cs|, c requires 0 <= c < |cs| => cs[c].state)
  }

  function LastReadings(cs: seq<Debouncer>): seq<bool> {
    seq(|cs|, c requires 0 <= c < |cs| => cs[c].lastReading)
  }

  function LastDebounceTimes(cs: seq<Debouncer>): seq<Millis> {
    seq(|cs|, c requires 0 <= c < |cs| => cs[c].lastDebounceTime)
  }

  /** The edges of the fourth pass, at 400 ms, with B still held down. */
  function FourthPass(): seq<Edge> {
    var cs := Channels();
    EdgesDebounced(States(cs), LastReadings(cs), LastDebounceTimes(cs), [HIGH, LOW, HIGH], [400, 400, 400])
  }

  /** Channels "A", "B" and "C", all idle at power-up, scanned by the
      corrected scan at 100, 200, 300 and 400 ms. Over the first three passes
      every button settles at HIGH, which is reported as a release and flips
      no flag; B's button goes down at 300 ms. The fourth pass, B still held
      down, reports a press of B alone: B's flag turns on and, connected, the
      only request is "start B". The fetch due at 10 400 ms reports only A as
      running, and that view wins over B's flip: A on, B and C off. */
  lemma SnapshotWins()
    ensures Run(PowerUp, Settling).1 == [Released] && Run(PowerUp, GoingDown).1 == [Released]
    ensures FourthPass() == [NoEdge, Pressed, NoEdge]
    ensures AfterScan([false, false, false], FourthPass()) == [false, true, false]
    ensures ScanRequests(["A", "B", "C"], [false, false, false], FourthPass(), [true, true, true], 3)
         == [Toggle(false, "B")]
    ensures AfterFetch(["A", "B", "C"], AfterScan([false, false, false], FourthPass()), "[\"A\"]", true)
         == [true, false, false]
  {
    var d1, d2 := Debouncer(LOW, HIGH, 100), Debouncer(HIGH, HIGH, 200);
    assert SampleDebounced(PowerUp, HIGH, 100) == (d1, NoEdge);
    assert SampleDebounced(d1, HIGH, 200) == (d2, Released);
    RunOfThree(PowerUp, Settling, d1, d2, Debouncer(HIGH, HIGH, 300), NoEdge);
    RunOfThree(PowerUp, GoingDown, d1, d2, Debouncer(HIGH, LOW, 300), NoEdge);
    var cs := Channels();
    assert cs == [Debouncer(HIGH, HIGH, 300), Debouncer(HIGH, LOW, 300), Debouncer(HIGH, HIGH, 300)];
    assert States(cs) == [HIGH, HIGH, HIGH];
    assert LastReadings(cs) == [HIGH, LOW, HIGH];
    assert LastDebounceTimes(cs) == [300, 300, 300];
    OnlyAReported();
  }

  /** Three samples whose steps are known, the middle one a release. */
  lemma RunOfThree(d0: Debouncer, rs: seq<Reading>, d1: Debouncer, d2: Debouncer, d3: Debouncer, e3: Edge)
    requires |rs| == 3
    requires SampleDebounced(d0, rs[0].level, rs[0].at) == (d1, NoEdge)
    requires SampleDebounced(d1, rs[1].level, rs[1].at) == (d2, Released)
    requires SampleDebounced(d2, rs[2].level, rs[2].at) == (d3, e3)
    ensures Run(d0, rs) == (d3, [Released] + Accepted(e3))
  {
    var last := rs[1..][1..];
    assert last[0] == rs[2] && last[1..] == [];
    assert Run(d3, last[1..]) == (d3, []);
    assert Accepted(e3) + [] == Accepted(e3);
    assert Run(d2, last) == (d3, Accepted(e3));
    assert rs[1..][0] == rs[1];
    assert Run(d1, rs[1..]) == (d3, [Released] + Accepted(e3));
    assert [] + ([Released] + Accepted(e3)) == [Released] + Accepted(e3);
  }
}
