/** Frame pacing: `Timer` in src/lib.rs. Time is the browser's `performance.now()`, a
    real number of milliseconds, read twice per frame: once before the wait (the new
    frame's timestamp) and once to measure the elapsed time. */
module Pacing {
  import opened Base

  /** The wait rule of `Timer::next` (and of `Engine::next`): a frame waits only when
      the period minus the elapsed time is positive, for that difference truncated to
      a whole number of milliseconds. */
  function Wait(period: nat, last: real, now: real): (w: Option<nat>)
    ensures w.Some? <==> period as real - (now - last) > 0.0
    ensures w.Some? ==> w.value <= USIZE_MAX
    ensures w.Some? && period as real - (now - last) < USIZE_MAX as real ==>
      w.value as real <= period as real - (now - last) < w.value as real + 1.0
    ensures w.Some? && period as real - (now - last) >= USIZE_MAX as real ==> w.value == USIZE_MAX
    ensures w.Some? && last <= now ==> w.value <= period
    ensures w.Some? && last < now ==> w.value < period
  {
    var gap := period as real - (now - last);
    if gap > 0.0 then Some(UsizeFromReal(gap)) else None
  }

  /** Waiting as told brings the clock within a millisecond of one period after the
      previous frame's timestamp, or past it when no wait was needed. */
  lemma WaitReachesPeriod(period: nat, last: real, now: real)
    requires period as real - (now - last) < USIZE_MAX as real
    ensures var w := Wait(period, last, now);
      w.None? ==> now >= last + period as real
    ensures var w := Wait(period, last, now);
      w.Some? ==> last + period as real - 1.0 < now + w.value as real <= last + period as real
  {
  }

  const PERIOD_PANIC: string := "assertion failed: frame_rate > 0"

  /** The frame timer: the previous frame's timestamp and the period in milliseconds. */
  class Timer {
    var last: real
    const period: nat

    /** `Timer::new`, from the rounded period and the current time; the source asserts
        the period is positive. */
    constructor (period: nat, now: real)
      requires period > 0
      ensures this.period == period && last == now
    {
      this.period := period;
      last := now;
    }

    /** `Timer::new`: the assertion on the rounded period panics when it is zero. */
    static method New(period: nat, now: real) returns (r: Result<Timer, string>)
      ensures r.Err? <==> period == 0
      ensures r.Err? ==> r.error == PERIOD_PANIC
      ensures r.Ok? ==> fresh(r.value) && r.value.period == period && r.value.last == now
    {
      if period == 0 {
        return Err(PERIOD_PANIC);
      }
      var t := new Timer(period, now);
      r := Ok(t);
    }

    /** `Timer::next`: `tt` is read first, `now` second. Returns how long the frame
        waits, if it waits; the new `last` is `tt`, not the time after the wait. */
    method Next(tt: real, now: real) returns (wait: Option<nat>)
      modifies this
      ensures wait == Wait(period, old(last), now)
      ensures last == tt
    {
      var diff := now - last;
      if period as real - diff > 0.0 {
        wait := Some(UsizeFromReal(period as real - diff));
      } else {
        wait := None;
      }
      last := tt;
    }
  }
}
