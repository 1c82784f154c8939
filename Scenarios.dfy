/** Concrete cycles: the boundary, case, average, cancellation and end-to-end cases. */
module Scenarios {
  import opened Wrappers
  import opened LiveBoard
  import opened Seqs
  import opened RouteFilter
  import opened Statistics
  import opened TrainInfo

  /** A clock reading, in milliseconds, and the same instant in seconds. */
  const NOW_MS: int := 1_700_000_000_000
  const NOW_S: int := 1_700_000_000

  function Train(offsetSeconds: int, name: string, delay: int, canceled: string): Event {
    Event(NOW_S + offsetSeconds, Some(name), None, Some(delay), canceled)
  }

  /** A train exactly at `now` or exactly two hours later is dropped; one second inside is kept. */
  lemma WindowEndsExcluded()
    ensures KeptEvents(Some([Train(0, "Bruxelles-Midi", 0, "0")]), NOW_MS) == []
    ensures KeptEvents(Some([Train(2 * 60 * 60, "Bruxelles-Midi", 0, "0")]), NOW_MS) == []
    ensures KeptEvents(Some([Train(2 * 60 * 60 - 1, "Bruxelles-Midi", 0, "0")]), NOW_MS) ==
            [Train(2 * 60 * 60 - 1, "Bruxelles-Midi", 0, "0")]
  {
    assert Includes(Lower("Bruxelles-Midi"), "bruxelles") by {
      assert Lower("Bruxelles-Midi")[..9] == "bruxelles";
    }
  }

  /** An upper-case name matches a lower-case fragment; a name off the route does not. */
  lemma UpperCaseNameMatches()
    ensures IsBruxellesOrCharleroi(Some("BRUXELLES-MIDI"))
    ensures !IsBruxellesOrCharleroi(Some("Namur"))
  {
    assert Lower("BRUXELLES-MIDI")[..9] == "bruxelles";
    assert Lower("Namur") == "namur";
  }

  /** Delays of 0, 0, 600 and 600 seconds average to 5 minutes. */
  lemma AverageOfFourDelays()
    ensures AvgDelay([Train(60, "Charleroi", 0, "0"), Train(120, "Charleroi", 0, "0"),
                      Train(180, "Charleroi", 600, "0"), Train(240, "Charleroi", 600, "0")]) == 5.0
  {
    var s := [Train(60, "Charleroi", 0, "0"), Train(120, "Charleroi", 0, "0"),
              Train(180, "Charleroi", 600, "0"), Train(240, "Charleroi", 600, "0")];
    assert TotalDelaySeconds(s[..0]) == 0;
    assert s[..1][..0] == s[..0];
    assert TotalDelaySeconds(s[..1]) == 0;
    assert s[..2][..1] == s[..1];
    assert TotalDelaySeconds(s[..2]) == 0;
    assert s[..3][..2] == s[..2];
    assert TotalDelaySeconds(s[..3]) == 600;
    assert s[..3] == s[..|s| - 1];
  }

  /** Two cancelled trains out of eight give 25 percent. */
  lemma TwoOfEightCancelled()
    ensures CancelledPercent([Train(60, "Charleroi", 0, "1"), Train(120, "Charleroi", 0, "1"),
                              Train(180, "Charleroi", 0, "0"), Train(240, "Charleroi", 0, "0"),
                              Train(300, "Charleroi", 0, "0"), Train(360, "Charleroi", 0, "0"),
                              Train(420, "Charleroi", 0, "0"), Train(480, "Charleroi", 0, "0")]) == 25.0
  {
    var s := [Train(60, "Charleroi", 0, "1"), Train(120, "Charleroi", 0, "1"),
              Train(180, "Charleroi", 0, "0"), Train(240, "Charleroi", 0, "0"),
              Train(300, "Charleroi", 0, "0"), Train(360, "Charleroi", 0, "0"),
              Train(420, "Charleroi", 0, "0"), Train(480, "Charleroi", 0, "0")];
    assert s == s[..2] + s[2..];
    FilterConcat(IsCancelled, s[..2], s[2..]);
    FilterAll(IsCancelled, s[..2]);
    FilterKeepsNoneIff(IsCancelled, s[2..]);
  }

  /**
   * A departure to Bruxelles-Midi in ten minutes with a six-minute delay is
   * kept, one in three hours is not, and the average delay is 6 minutes.
   */
  lemma EndToEnd()
    ensures KeptEvents(Some([Train(600, "Bruxelles-Midi", 360, "0"), Train(3 * 60 * 60, "Bruxelles-Midi", 0, "0")]), NOW_MS) ==
            [Train(600, "Bruxelles-Midi", 360, "0")]
    ensures ComputeStats(KeptEvents(Some([Train(600, "Bruxelles-Midi", 360, "0"), Train(3 * 60 * 60, "Bruxelles-Midi", 0, "0")]), NOW_MS),
                         KeptEvents(None, NOW_MS), NOW_MS) == Stats(6.0, 0.0)
  {
    assert Includes(Lower("Bruxelles-Midi"), "bruxelles") by {
      assert Lower("Bruxelles-Midi")[..9] == "bruxelles";
    }
    var e := Train(600, "Bruxelles-Midi", 360, "0");
    var late := Train(3 * 60 * 60, "Bruxelles-Midi", 0, "0");
    assert [e, late][1..] == [late];
    assert Filter(WithinTwoHours(NOW_MS), [e, late]) == [e];
    assert OnRoute(e);
    assert Filter(OnRoute, [e]) == [e];
    assert KeptEvents(Some([e, late]), NOW_MS) == [e];
    assert KeptEvents(None, NOW_MS) == [];
    assert NextHour([e], [], NOW_MS) == [e];
    assert [e][..0] == [];
  }

  /**
   * The timer starts a new cycle whether or not the previous one has finished.
   * When a cycle starts while another is awaiting its responses and the first
   * then succeeds, `loading` reads false although the second is still running.
   */
  method OverlappingCycles(d: Dashboard, departureList: Option<seq<Event>>, arrivalList: Option<seq<Event>>, now: int, stamp: int)
    requires d.Valid()
    modifies d
    ensures d.Valid()
    ensures !d.loading
    ensures d.departures == KeptEvents(departureList, now) && d.lastUpdate == Some(stamp)
  {
    d.BeginCycle();  // the first cycle starts and awaits its responses
    d.BeginCycle();  // a timer tick starts a second one; nothing refuses it
    assert d.loading;
    d.CompleteCycle(departureList, arrivalList, now, stamp);  // the first one resolves
  }

  /**
   * A response with an HTTP error status still parses as JSON, but carries no
   * train list: the cycle takes the success path, empties the board and
   * stamps it as updated.
   */
  method ErrorStatusEmptiesBoard(d: Dashboard, now: int, stamp: int)
    requires d.Valid()
    modifies d
    ensures d.Valid()
    ensures d.departures == [] && d.arrivals == []
    ensures d.stats == Stats(0.0, 0.0)
    ensures d.lastUpdate == Some(stamp) && !d.loading
  {
    d.LoadData(Fetched(None, None), now, stamp);
  }
}
