/** The records of the live-board feed and the fixed time constants. */
module LiveBoard {
  import opened Wrappers

  /**
   * One departure or arrival record of the live-board feed.
   * `time` is the scheduled time in epoch SECONDS (the clock `now` is in
   * milliseconds); `station` and `direction` are the name fields, absent when
   * the record lacks them; `delay` is the delay in seconds as `Number(...)`
   * reads it, `None` when that is not a number; `canceled` is the raw flag,
   * `"1"` for a cancelled train.
   */
  datatype Event = Event(
    time: int,
    station: Option<string>,
    direction: Option<string>,
    delay: Option<int>,
    canceled: string)

  const ONE_HOUR_MS: int := 60 * 60 * 1000
  const TWO_HOURS_MS: int := 2 * 60 * 60 * 1000
  const THREE_HOURS_MS: int := 3 * 60 * 60 * 1000

  /** `depData.departures?.departure || []`: a missing list reads as empty. */
  function FeedList(list: Option<seq<Event>>): seq<Event> {
    list.GetOr([])
  }
}
