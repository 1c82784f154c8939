/**
 * The two figures derived from the kept departures and arrivals: the mean
 * delay over the trains due within the hour, and the share of cancelled
 * trains over the "last three hours" window. Values are exact rationals;
 * the one-decimal formatting applied for display is not part of this model.
 */
module Statistics {
  import opened Wrappers
  import opened LiveBoard
  import opened Seqs
  import opened RouteFilter

  /** The statistics record: `{ avgDelayNextHour, cancelledPercentLast3h }`. */
  datatype Stats = Stats(avgDelayNextHour: real, cancelledPercentLast3h: real)

  /** `t.time * 1000 < now + oneHour`. */
  function DueWithinHour(now: int): Event -> bool {
    (t: Event) => t.time * 1000 < now + ONE_HOUR_MS
  }

  /** `t.time * 1000 > now - threeHours`. */
  function AfterThreeHoursAgo(now: int): Event -> bool {
    (t: Event) => t.time * 1000 > now - THREE_HOURS_MS
  }

  /** `nextHour`: the departures due within the hour, then the arrivals due within the hour. */
  function NextHour(dep: seq<Event>, arr: seq<Event>, now: int): (r: seq<Event>)
    ensures forall t :: t in r <==> (t in dep || t in arr) && t.time * 1000 < now + ONE_HOUR_MS
  {
    Filter(DueWithinHour(now), dep) + Filter(DueWithinHour(now), arr)
  }

  /** `recent`: the departures, then the arrivals, scheduled after `now - 3h`. */
  function Recent(dep: seq<Event>, arr: seq<Event>, now: int): (r: seq<Event>)
    ensures forall t :: t in r <==> (t in dep || t in arr) && t.time * 1000 > now - THREE_HOURS_MS
  {
    Filter(AfterThreeHoursAgo(now), dep) + Filter(AfterThreeHoursAgo(now), arr)
  }

  /** `(Number(t.delay) || 0) / 60`: the delay in minutes, a non-number counting as 0. */
  function DelayMinutes(t: Event): real {
    t.delay.GetOr(0) as real / 60.0
  }

  /** `nextHour.map(...)`: the delays in minutes, in order. */
  function DelaysInMinutes(s: seq<Event>): seq<real> {
    seq(|s|, i requires 0 <= i < |s| => DelayMinutes(s[i]))
  }

  /** `reduce((a, b) => a + b, 0)`: a left-to-right sum. */
  function Sum(xs: seq<real>): real {
    if xs == [] then 0.0 else Sum(xs[..|xs| - 1]) + xs[|xs| - 1]
  }

  /**
   * `avgDelay`: the mean of the delays in minutes, and 0 with no division when
   * there are none. It equals the total delay in seconds divided by 60 times
   * the number of trains.
   */
  function AvgDelay(nextHour: seq<Event>): (r: real)
    ensures nextHour == [] ==> r == 0.0
    ensures nextHour != [] ==> r == TotalDelaySeconds(nextHour) as real / (60.0 * |nextHour| as real)
  {
    var delays := DelaysInMinutes(nextHour);
    if |delays| > 0 then
      SumOfDelays(nextHour);
      NestedQuotient(TotalDelaySeconds(nextHour) as real, Sum(delays), |delays| as real);
      Sum(delays) / |delays| as real
    else 0.0
  }

  /** Independent reference: the total delay in whole seconds, an absent delay counting as 0. */
  function TotalDelaySeconds(s: seq<Event>): int {
    if s == [] then 0 else TotalDelaySeconds(s[..|s| - 1]) + s[|s| - 1].delay.GetOr(0)
  }

  /** Summing the per-train minutes gives the total seconds over 60. */
  lemma {:induction false} SumOfDelays(s: seq<Event>)
    ensures Sum(DelaysInMinutes(s)) == TotalDelaySeconds(s) as real / 60.0
  {
    if s != [] {
      var init := s[..|s| - 1];
      SumOfDelays(init);
      assert DelaysInMinutes(s)[..|s| - 1] == DelaysInMinutes(init);
    }
  }

  /** Dividing by 60 and then by `n` is dividing by `60 * n`. */
  lemma NestedQuotient(total: real, minutes: real, n: real)
    requires n > 0.0
    requires minutes == total / 60.0
    ensures minutes / n == total / (60.0 * n)
  {
  }

  /** A quotient by a positive `n` of a value in `[n * lo, n * hi]` lies in `[lo, hi]`. */
  lemma QuotientBounds(sum: real, n: real, lo: real, hi: real)
    requires n > 0.0
    requires n * lo <= sum <= n * hi
    ensures lo <= sum / n <= hi
  {
  }

  /** `c` out of `n`, as a percentage, lies in `[0, 100]`, with 0 only for none and 100 only for all. */
  lemma PercentBounds(c: real, n: real)
    requires 0.0 <= c <= n
    requires n > 0.0
    ensures 0.0 <= (c / n) * 100.0 <= 100.0
    ensures (c / n) * 100.0 == 0.0 <==> c == 0.0
    ensures (c / n) * 100.0 == 100.0 <==> c == n
  {
  }

  /** A sum of values in `[lo, hi]` lies between `|xs| * lo` and `|xs| * hi`. */
  lemma {:induction false} SumBounds(xs: seq<real>, lo: real, hi: real)
    requires forall i :: 0 <= i < |xs| ==> lo <= xs[i] <= hi
    ensures |xs| as real * lo <= Sum(xs) <= |xs| as real * hi
  {
    if xs != [] {
      SumBounds(xs[..|xs| - 1], lo, hi);
    }
  }

  /** The average delay lies between the smallest and the largest delay it averages. */
  lemma AvgDelayWithinBounds(s: seq<Event>, lo: real, hi: real)
    requires s != []
    requires forall t :: t in s ==> lo <= DelayMinutes(t) <= hi
    ensures lo <= AvgDelay(s) <= hi
  {
    var delays := DelaysInMinutes(s);
    assert forall i :: 0 <= i < |delays| ==> lo <= delays[i] <= hi by {
      forall i | 0 <= i < |delays| ensures lo <= delays[i] <= hi {
        assert s[i] in s;
      }
    }
    SumBounds(delays, lo, hi);
    QuotientBounds(Sum(delays), |delays| as real, lo, hi);
  }

  /** `String(t.canceled) === "1"`. */
  predicate IsCancelled(t: Event) {
    t.canceled == "1"
  }

  /**
   * `cancelledPercent`: the share of cancelled trains in `recent`, as a
   * percentage, and 0 with no division when `recent` is empty.
   */
  function CancelledPercent(recent: seq<Event>): (r: real)
    ensures 0.0 <= r <= 100.0
    ensures r == 0.0 <==> forall t :: t in recent ==> !IsCancelled(t)
    ensures r == 100.0 <==> recent != [] && forall t :: t in recent ==> IsCancelled(t)
  {
    var cancelled := |Filter(IsCancelled, recent)|;
    FilterKeepsAllIff(IsCancelled, recent);
    FilterKeepsNoneIff(IsCancelled, recent);
    if |recent| > 0 then
      PercentBounds(cancelled as real, |recent| as real);
      (cancelled as real / |recent| as real) * 100.0
    else 0.0
  }

  /**
   * The statistics of one cycle: the cancellation figure is a percentage, and
   * the average is 0 when no train is due within the hour.
   */
  function ComputeStats(dep: seq<Event>, arr: seq<Event>, now: int): (r: Stats)
    ensures 0.0 <= r.cancelledPercentLast3h <= 100.0
    ensures NextHour(dep, arr, now) == [] ==> r.avgDelayNextHour == 0.0
  {
    Stats(AvgDelay(NextHour(dep, arr, now)), CancelledPercent(Recent(dep, arr, now)))
  }

  /**
   * The "last three hours" window removes nothing: every kept event is after
   * `now`, hence after `now - 3h`, so `recent` is all kept departures followed
   * by all kept arrivals.
   */
  lemma RecentIsEverything(depList: Option<seq<Event>>, arrList: Option<seq<Event>>, now: int)
    ensures Recent(KeptEvents(depList, now), KeptEvents(arrList, now), now) ==
            KeptEvents(depList, now) + KeptEvents(arrList, now)
  {
    FilterAll(AfterThreeHoursAgo(now), KeptEvents(depList, now));
    FilterAll(AfterThreeHoursAgo(now), KeptEvents(arrList, now));
  }

  /**
   * A train counts towards the hourly average exactly when it is a kept
   * departure or arrival due strictly within the coming hour.
   */
  lemma NextHourIff(depList: Option<seq<Event>>, arrList: Option<seq<Event>>, now: int, t: Event)
    ensures t in NextHour(KeptEvents(depList, now), KeptEvents(arrList, now), now) <==>
      && (t in KeptEvents(depList, now) || t in KeptEvents(arrList, now))
      && now < t.time * 1000 < now + ONE_HOUR_MS
  {
  }

  /** The next-hour window is an order-preserving selection from each list, departures first. */
  lemma NextHourIsSelection(dep: seq<Event>, arr: seq<Event>, now: int)
    ensures NextHour(dep, arr, now) == Filter(DueWithinHour(now), dep + arr)
  {
    FilterConcat(DueWithinHour(now), dep, arr);
  }
}
