# Nivelles train dashboard: the refresh cycle, in Dafny

The dashboard polls the iRail live board of Nivelles station for departures and
arrivals. Each refresh (`loadData` in `src/TrainInfo.js`) does four things.

- It keeps the trains scheduled strictly between now and two hours from now.
- It keeps only the trains whose station or direction name mentions
  `bruxelles`, `brussel` or `charleroi`, in any letter case.
- It derives two figures from the kept trains: the mean delay of those due
  within the hour, and the percentage of cancelled trains in the "last three
  hours".
- It publishes the lists, the figures and a time stamp, and toggles a loading
  flag around the whole cycle.

A cycle that throws leaves the previous data on screen: a network error, a
body that is not JSON, a JSON body `null`, or a malformed record. The code never checks the HTTP status. A
response with an error status whose body is JSON without a train list takes
the success path: that side's list becomes empty, the figures are recomputed
and the time stamp is renewed (`ErrorStatusEmptiesBoard`). Each row is styled
`cancelled`, `late` or not at all.

Modules:

- `LiveBoard`: the feed record `Event` and the time constants.
- `Seqs`: `Filter`, which models `Array.prototype.filter`, with its lemmas.
- `RouteFilter`: the time window, the route match and the kept lists.
- `Statistics`: the two figures, as exact rationals.
- `RowStyle`: the row classes.
- `TrainInfo`: the dashboard state as a class `Dashboard`, whose methods are
  the steps of `loadData`.
- `Scenarios`: concrete cycles worked through.

Times of trains are epoch seconds. The clock `now` is epoch milliseconds, as in
the source. A name or list absent from the JSON is `None`. A delay that
`Number(...)` does not read as a number is `None`.

Two facts about the code are proved rather than assumed:

- The "last three hours" window of the cancellation figure removes nothing
  (`RecentIsEverything`). Every kept train is already after `now`, so the
  figure is really the cancellation share of all kept trains in the next two
  hours.
- The timer starts a cycle whether or not the previous one has finished.
  `BeginCycle` has no precondition on `loading`. `OverlappingCycles` shows
  `loading` reading false while a second cycle is still running.

Two further facts about the code shape the model:

- The route test looks at both the `station` and the `direction` field of a
  record.
- A non-numeric delay becomes 0 where the delay is used (`|| 0` in the average),
  not when the feed is read.

## Model

| member | source | states |
|---|---|---|
| `Seqs.Filter` | src/TrainInfo.js:42-49 | `filter` keeps at most as many elements as it is given, and an element is in the result iff it is in the input and passes the test |
| `RouteFilter.Lower` | src/TrainInfo.js:37 | `toLowerCase` keeps the length, leaves no ASCII capital, turns each ASCII capital into its lower-case letter and keeps every other character |
| `RouteFilter.Includes` | src/TrainInfo.js:38 | the left-to-right `includes` search succeeds iff the fragment occurs at some position of the string |
| `RouteFilter.IsBruxellesOrCharleroi` | src/TrainInfo.js:35-39 | an accepted name is present and non-empty: an absent or empty name never matches |
| `RouteFilter.RouteMatchIff` | src/TrainInfo.js:35-39 | a name is accepted iff it is present and its lower-cased form contains `bruxelles`, `brussel` or `charleroi` (both directions) |
| `RouteFilter.LowerIsIdempotent` | src/TrainInfo.js:37 | lower-casing keeps the length and lower-casing twice is lower-casing once |
| `RouteFilter.RouteMatchOnLowered` | src/TrainInfo.js:35-39 | a name and its lower-cased form get the same answer, so the case of the name's letters never matters |
| `RouteFilter.RouteMatchIgnoresCase` | src/TrainInfo.js:37-38 | two names that agree after lower-casing get the same answer |
| `RouteFilter.KeptEvents` | src/TrainInfo.js:42-49 | every kept train has `now < time*1000 < now + 2h`, both ends excluded, and passes the route test; a missing feed list gives an empty result |
| `RouteFilter.KeptIff` | src/TrainInfo.js:42-49 | a train is kept iff the feed list is present, the train is in it, it lies strictly inside the two-hour window, and its station or direction names the route |
| `RouteFilter.KeptIsOneFilter` | src/TrainInfo.js:43-44 | the time filter followed by the route filter selects exactly what a single filter on both tests selects, in the same order |
| `RouteFilter.KeptIsSubsequence` | src/TrainInfo.js:42-49 | the kept list is an order-preserving subsequence of the feed list: filtering only drops trains |
| `Statistics.NextHour` | src/TrainInfo.js:57-60 | a train is in `nextHour` iff it is in the departures or the arrivals and `time*1000 < now + 1h` |
| `Statistics.Recent` | src/TrainInfo.js:67-70 | a train is in `recent` iff it is in the departures or the arrivals and `time*1000 > now - 3h` |
| `Statistics.NextHourIff` | src/TrainInfo.js:57-60 | a train is in `nextHour` iff it is a kept departure or arrival with `now < time*1000 < now + 1h` |
| `Statistics.NextHourIsSelection` | src/TrainInfo.js:57-60 | `nextHour` is the departures due within the hour followed by the arrivals due within the hour, i.e. one order-preserving filter of `dep ++ arr` |
| `Statistics.RecentIsEverything` | src/TrainInfo.js:67-70 | the "last 3 hours" window removes nothing from the kept lists: `recent` is exactly the kept departures followed by the kept arrivals |
| `Statistics.SumOfDelays` | src/TrainInfo.js:62 | summing the per-train delays in minutes, with a non-number as 0, gives the total delay in seconds divided by 60 |
| `Statistics.AvgDelay` | src/TrainInfo.js:62-64 | the average delay is 0 for an empty window (no division), and otherwise the total delay in seconds over 60 times the number of trains |
| `Statistics.AvgDelayWithinBounds` | src/TrainInfo.js:62-64 | the average delay lies between the smallest and the largest per-train delay it averages |
| `Statistics.CancelledPercent` | src/TrainInfo.js:72-74 | the percentage lies in [0, 100]; it is 0 iff no train in the window has `canceled == "1"` (so 0 for an empty window), and 100 iff the window is non-empty and every train in it is cancelled |
| `Statistics.ComputeStats` | src/TrainInfo.js:57-77 | the statistics stored by `setStats`: the cancellation figure lies in [0, 100], and the average is 0 when no train is due within the hour |
| `RowStyle.IsLate` | src/TrainInfo.js:119 | `Number(delay) / 60 > 5` holds iff the delay is a number above 300 seconds; a delay that is not a number is never late |
| `RowStyle.DepartureRowClass` | src/TrainInfo.js:116-121 | a departure row is `cancelled` iff `canceled == "1"`, and `late` iff it is not cancelled and its delay exceeds 300 seconds; cancelled takes precedence over late |
| `RowStyle.ArrivalRowClass` | src/TrainInfo.js:142 | an arrival row is never `cancelled`, and is `late` iff its delay exceeds 300 seconds |
| `RowStyle.DepartureRuleExtendsArrivalRule` | src/TrainInfo.js:116-142 | a departure row is classed as an arrival row would be, except that a cancelled departure is `cancelled` |
| `TrainInfo.Dashboard.constructor` | src/TrainInfo.js:6-10 | the initial state: empty lists, zero figures, loading, no update time, and the snapshot invariant holds |
| `TrainInfo.Dashboard.BeginCycle` | src/TrainInfo.js:18 | `loading` becomes true and nothing else changes; there is no guard against a cycle already running |
| `TrainInfo.Dashboard.CompleteCycle` | src/TrainInfo.js:42-82 | the lists become the kept feed lists; the figures become the next-hour average and the cancellation share of all kept trains; `lastUpdate` becomes the new stamp; `loading` ends false; the lists and figures come from the same cycle |
| `TrainInfo.Dashboard.FailCycle` | src/TrainInfo.js:79-82 | after a failed request only `loading` changes, to false; lists, figures and `lastUpdate` keep their previous values |
| `TrainInfo.Dashboard.LoadData` | src/TrainInfo.js:17-83 | a whole cycle: on success all four published fields are replaced, on failure they are all kept; `loading` ends false either way, and the snapshot invariant is preserved |
| `Scenarios.OverlappingCycles` | src/TrainInfo.js:18-82 | a cycle started while another is awaiting its responses is not prevented, and the first cycle's completion clears `loading` while the second is still running |
| `Scenarios.ErrorStatusEmptiesBoard` | src/TrainInfo.js:25-82 | a cycle whose responses parse but carry no train list empties both lists, zeroes both figures, renews `lastUpdate` and clears `loading` |
| `Scenarios.WindowEndsExcluded` | src/TrainInfo.js:43 | a train exactly at `now` or exactly at `now + 2h` is dropped, and one a second inside the window is kept |
| `Scenarios.UpperCaseNameMatches` | src/TrainInfo.js:37-38 | `BRUXELLES-MIDI` matches the route and `Namur` does not |
| `Scenarios.AverageOfFourDelays` | src/TrainInfo.js:62-64 | delays of 0, 0, 600 and 600 seconds average to 5 minutes |
| `Scenarios.TwoOfEightCancelled` | src/TrainInfo.js:72-74 | two cancelled trains out of eight give 25 percent |
| `Scenarios.EndToEnd` | src/TrainInfo.js:42-64 | of a departure in ten minutes and one in three hours, both to Bruxelles-Midi, only the first is kept; with its 360-second delay the average is 6 minutes and the cancellation share 0 |

## Left out

- The two HTTP requests, `Promise.all` and the JSON parsing (src/TrainInfo.js:21-27) are I/O. Their result is the parameter `FetchOutcome`. `FetchFailed` stands for every cycle that reaches the `catch`: a rejected request, a body that is not JSON, a JSON body `null` (reading `.departures` throws), a `null` element in a feed list (reading `.time` throws), and the malformed records listed below. `Fetched` carries each side's list, `None` when the parsed body has none. This covers a response with an HTTP error status, which the code does not check.
- The error log (`console.error`) is I/O and is not modelled.
- The clock (`Date.now()`, `new Date()`) is passed in as the parameters `now` and `stamp`.
- The 60-second timer is not modelled: `setInterval`, `clearInterval` and the immediate first call (src/TrainInfo.js:86-90). Any interleaving of `BeginCycle`, `CompleteCycle` and `FailCycle` calls can be written as a client of `Dashboard`.
- React's state setters are modelled as direct field writes, made in the source's order, inside one method. React's batching of re-renders is not modelled.
- Formatting with `toFixed(1)` is not modelled. The figures are kept as exact rationals (`real`), not as the one-decimal strings the source stores after the first cycle. Floating-point rounding of `/ 60`, `/ length` and `* 100` is left out too.
- `time * 1000` is exact integer arithmetic here. JavaScript computes it on doubles, which is exact for epoch seconds below 2^53 / 1000.
- A `time` that is not a number is not modelled. In JavaScript it yields NaN and drops the train.
- `toLowerCase` is modelled on ASCII letters only. Unicode case mappings that produce ASCII letters are not modelled, for example U+0130 to "i" plus a combining dot.
- The record fields are modelled only as strings or absent. A name field that is truthy but not a string would make `toLowerCase` throw and the cycle fail. A feed list that is not an array would make `.filter` throw.
- A numeric `canceled` flag is not modelled. `String(1) === "1"` holds in the statistics, but `1 === "1"` fails in the row rule. The model's flag is always a string, as the feed sends it.
- A delay that is a non-integer number is not modelled. The model's delays are integers.
- Rendering is presentation and is not modelled: the JSX, `toLocaleTimeString`, `Math.round` of delays, the "Oui/Non" text and the header clock in src/App.js.
