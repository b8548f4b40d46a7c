/** The refresh throttle: the card recomputes only when the configured
    interval has passed since the last recomputation. */
module Throttle {
  import opened Wrappers

  /** The card's `lastRefreshTimestamp` (milliseconds); an unset timestamp
      reads as 0. */
  datatype Throttle = Throttle(lastRefresh: int)

  const Initial := Throttle(0)

  /** The outcome of one update from the host: the new throttle state and
      whether the card recomputes. */
  datatype Tick = Tick(state: Throttle, refresh: bool)

  /** One update at `now` with the interval in milliseconds (`None` for NaN,
      against which every comparison fails). */
  function Step(t: Throttle, now: int, intervalMs: Option<real>): (r: Tick)
    ensures r.refresh <==> intervalMs.Some? && (now - t.lastRefresh) as real >= intervalMs.value
    ensures r.refresh ==> r.state == Throttle(now)
    ensures !r.refresh ==> r.state == t
  {
    if !(intervalMs.Some? && (now - t.lastRefresh) as real >= intervalMs.value) then Tick(t, false)
    else Tick(Throttle(now), true)
  }

  /** After a recomputation at `t1`, an update earlier than one interval later
      does nothing, and one at least an interval later recomputes. */
  lemma RefreshesAreSpaced(t: Throttle, t1: int, t2: int, intervalMs: real)
    requires Step(t, t1, Some(intervalMs)).refresh
    ensures Step(Step(t, t1, Some(intervalMs)).state, t2, Some(intervalMs)).refresh
        <==> (t2 - t1) as real >= intervalMs
  {
  }

  /** An update that does not recompute can be repeated at the same instant
      with the same outcome. */
  lemma SkippedUpdateIdempotent(t: Throttle, now: int, intervalMs: Option<real>)
    requires !Step(t, now, intervalMs).refresh
    ensures Step(Step(t, now, intervalMs).state, now, intervalMs) == Step(t, now, intervalMs)
  {
  }

  /** A fresh card recomputes on its first update once the clock has reached
      the interval. */
  lemma FirstUpdateRefreshes(now: int, intervalMs: real)
    requires now as real >= intervalMs
    ensures Step(Initial, now, Some(intervalMs)) == Tick(Throttle(now), true)
  {
  }
}
