/**
 * The two filters applied to each feed list: the two-hour time window and the
 * Brussels/Charleroi route match on the station or direction name.
 */
module RouteFilter {
  import opened Wrappers
  import opened LiveBoard
  import opened Seqs

  /** `toLowerCase` on one character (upper-case ASCII letters only). */
  function LowerChar(c: char): char {
    if 'A' <= c <= 'Z' then (c as int + 32) as char else c
  }

  /**
   * `toLowerCase` on a string: same length, no ASCII capital left, each
   * ASCII capital replaced by its lower-case letter and every other
   * character kept.
   */
  function Lower(s: string): (r: string)
    ensures |r| == |s|
    ensures forall i :: 0 <= i < |s| ==> !('A' <= r[i] <= 'Z')
    ensures forall i :: 0 <= i < |s| ==>
      if 'A' <= s[i] <= 'Z' then r[i] as int == s[i] as int + 32 else r[i] == s[i]
  {
    seq(|s|, i requires 0 <= i < |s| => LowerChar(s[i]))
  }

  /** `fragment` sits in `s` starting at position `i`. */
  ghost predicate OccursAt(fragment: string, s: string, i: int) {
    0 <= i && i + |fragment| <= |s| && s[i..i + |fragment|] == fragment
  }

  /** `fragment` occurs somewhere in `s` as a contiguous piece. */
  ghost predicate OccursIn(fragment: string, s: string) {
    exists i :: OccursAt(fragment, s, i)
  }

  /**
   * `s.includes(fragment)`: tries each start position from left to right, and
   * succeeds exactly when the fragment occurs somewhere in `s`.
   */
  function Includes(s: string, fragment: string): (r: bool)
    ensures r <==> OccursIn(fragment, s)
    decreases |s|
  {
    if |fragment| > |s| then false
    else if s[..|fragment|] == fragment then
      assert OccursAt(fragment, s, 0);
      true
    else
      var rest := Includes(s[1..], fragment);
      assert rest <==> OccursIn(fragment, s) by {
        if rest {
          var i :| OccursAt(fragment, s[1..], i);
          assert s[i + 1..i + 1 + |fragment|] == s[1..][i..i + |fragment|];
          assert OccursAt(fragment, s, i + 1);
        }
        if OccursIn(fragment, s) {
          var i :| OccursAt(fragment, s, i);
          assert i != 0;
          assert s[1..][i - 1..i - 1 + |fragment|] == s[i..i + |fragment|];
          assert OccursAt(fragment, s[1..], i - 1);
        }
      }
      rest
  }

  /**
   * `isBruxellesOrCharleroi`: an absent or empty name is refused outright;
   * otherwise its lower-cased form must contain one of the three fragments.
   */
  function IsBruxellesOrCharleroi(name: Option<string>): (r: bool)
    ensures r ==> name.Some? && name.value != []
  {
    match name
    case None => false
    case Some(s) =>
      if s == [] then false
      else
        var lower := Lower(s);
        Includes(lower, "bruxelles") || Includes(lower, "brussel") || Includes(lower, "charleroi")
  }

  /** Reference reading of the route test: a name present whose lower-cased form mentions a fragment. */
  ghost predicate NamesRoute(name: Option<string>) {
    name.Some? &&
    (OccursIn("bruxelles", Lower(name.value)) ||
     OccursIn("brussel", Lower(name.value)) ||
     OccursIn("charleroi", Lower(name.value)))
  }

  /** The route test accepts exactly the names that mention a fragment, whatever their case. */
  lemma RouteMatchIff(name: Option<string>)
    ensures IsBruxellesOrCharleroi(name) <==> NamesRoute(name)
  {
  }

  /** Lower-casing keeps the length, and lower-casing a lower-cased string changes nothing. */
  lemma LowerIsIdempotent(s: string)
    ensures |Lower(s)| == |s|
    ensures Lower(Lower(s)) == Lower(s)
  {
  }

  /** A name and its lower-cased form get the same answer: the route test never depends on letter case. */
  lemma RouteMatchOnLowered(s: string)
    ensures IsBruxellesOrCharleroi(Some(s)) == IsBruxellesOrCharleroi(Some(Lower(s)))
  {
    LowerIsIdempotent(s);
  }

  /** Names that differ only in the case of their letters get the same answer. */
  lemma RouteMatchIgnoresCase(a: string, b: string)
    requires Lower(a) == Lower(b)
    ensures IsBruxellesOrCharleroi(Some(a)) == IsBruxellesOrCharleroi(Some(b))
  {
  }

  /** `t.time * 1000 > now && t.time * 1000 < now + twoHours`: both ends excluded. */
  predicate InWindow(t: Event, now: int) {
    t.time * 1000 > now && t.time * 1000 < now + TWO_HOURS_MS
  }

  /** The time test as the function value handed to `filter`. */
  function WithinTwoHours(now: int): Event -> bool {
    t => InWindow(t, now)
  }

  /** `isBruxellesOrCharleroi(t.station) || isBruxellesOrCharleroi(t.direction)`. */
  predicate OnRoute(t: Event) {
    IsBruxellesOrCharleroi(t.station) || IsBruxellesOrCharleroi(t.direction)
  }

  /** Both tests at once. */
  predicate Kept(t: Event, now: int) {
    InWindow(t, now) && OnRoute(t)
  }

  /**
   * `dep` (or `arr`): the feed list, missing lists read as empty, filtered
   * first on the time window and then on the route.
   */
  function KeptEvents(list: Option<seq<Event>>, now: int): (r: seq<Event>)
    ensures forall t :: t in r ==> now < t.time * 1000 < now + TWO_HOURS_MS
    ensures forall t :: t in r ==> OnRoute(t)
    ensures list.None? ==> r == []
  {
    Filter(OnRoute, Filter(WithinTwoHours(now), FeedList(list)))
  }

  /**
   * An event is kept exactly when it is in the feed, inside the window, and its
   * station or direction names the route.
   */
  lemma KeptIff(list: Option<seq<Event>>, now: int, t: Event)
    ensures t in KeptEvents(list, now) <==>
      && list.Some? && t in list.value
      && now < t.time * 1000 < now + TWO_HOURS_MS
      && (NamesRoute(t.station) || NamesRoute(t.direction))
  {
    RouteMatchIff(t.station);
    RouteMatchIff(t.direction);
  }

  /** The two chained filters select exactly what one filter on both tests selects, in the same order. */
  lemma KeptIsOneFilter(list: Option<seq<Event>>, now: int)
    ensures KeptEvents(list, now) == Filter(t => Kept(t, now), FeedList(list))
  {
    FilterFilter(WithinTwoHours(now), OnRoute, t => Kept(t, now), FeedList(list));
  }

  /** The kept list is an order-preserving subsequence of the feed list. */
  lemma KeptIsSubsequence(list: Option<seq<Event>>, now: int)
    ensures IsSubsequence(KeptEvents(list, now), FeedList(list))
  {
    KeptIsOneFilter(list, now);
    FilterIsSubsequence(t => Kept(t, now), FeedList(list));
  }
}
