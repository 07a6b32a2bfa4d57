/** The clock the animator prints at the top of the overlay.  Times are
    integer milliseconds; one real millisecond is shown as sixty simulated
    ones, so each one-second tick advances the shown time by a minute. */
module Clock {

  /** Simulated milliseconds per real millisecond. */
  const Speedup: int := 60

  /** Time shown by a tick at wall-clock `now` of an animation started at
      `start`, while the frame index is `i`: the elapsed time counts as zero
      while the index is still 0. */
  function DisplayedTime(start: int, now: int, i: nat): int
  {
    var timePassed := if i == 0 then 0 else now - start;
    start + Speedup * timePassed
  }

  /** While frame 0 is pending the clock shows the start time, whenever the tick fires. */
  lemma FirstFrameShowsStart(start: int, now: int)
    ensures DisplayedTime(start, now, 0) == start
  {
  }

  /** After the first frame, the shown time moves sixty times as fast as the wall clock. */
  lemma ClockRunsSixtyTimesFaster(start: int, t1: int, t2: int, i1: nat, i2: nat)
    requires i1 > 0 && i2 > 0
    ensures DisplayedTime(start, t2, i2) - DisplayedTime(start, t1, i1) == Speedup * (t2 - t1)
  {
  }

  /** The shown time is never before the start, and from it the real elapsed
      time can be read back. */
  lemma ClockReadsBack(start: int, now: int, i: nat)
    requires start <= now
    ensures start <= DisplayedTime(start, now, i)
    ensures i > 0 ==> (DisplayedTime(start, now, i) - start) / Speedup == now - start
  {
  }
}
