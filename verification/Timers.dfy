/** The timers of the two event loops. A timer with a zero period is disabled.

    Assumptions about the timekeeping library, which is not part of this model: a timer is due one
    period after mSince; when it fires, mSince is first advanced by whole periods (a lap) and then the
    callback runs; Trigger makes the timer due now, Restart begins a fresh period, Delay shifts it; a
    timer that has never run starts to run when it is given a period. Times are nanoseconds. */
module Timers {

  datatype Timer = Timer(since: int, period: nat) {

    predicate Armed() {
      period != 0
    }

    function Due(): int {
      since + period
    }

    predicate Expired(now: int) {
      Armed() && Due() <= now
    }

    function Lapped(now: int): Timer {
      if period == 0 || now < since then this
      else Timer(since + (now - since) / period * period, period)
    }

    function Triggered(now: int): Timer {
      Timer(now - period, period)
    }

    function Restarted(now: int): Timer {
      Timer(now, period)
    }

    function Delayed(delay: int): Timer {
      Timer(since + delay, period)
    }

    /** The timer is given a period; if it had none it starts to run now. */
    function Started(now: int, duration: nat): Timer {
      Timer(if Armed() then since else now, duration)
    }

    function Disabled(): Timer {
      Timer(since, 0)
    }
  }

  /** A timer that fires less than one period late keeps its phase: its next due time is one period
      after the time at which it was due. */
  lemma LapKeepsPhase(t: Timer, now: int)
    requires t.Expired(now) && now < t.Due() + t.period
    ensures t.Lapped(now) == Timer(t.Due(), t.period)
  {
    assert (now - t.since) / t.period == 1;
  }

  lemma LapKeepsPeriod(t: Timer, now: int)
    ensures t.Lapped(now).period == t.period
  {
  }

  /** However late it fires, the next due time lies after the firing, by at most one period. */
  lemma LapIsAhead(t: Timer, now: int)
    requires t.Armed() && t.since <= now
    ensures now < t.Lapped(now).Due() <= now + t.period
  {
    var n := now - t.since;
    assert n == n / t.period * t.period + n % t.period;
  }

  /** However late a timer is served, its next due time lies at least one period after the previous one
      and at most one period after the service. */
  lemma LapBounds(t: Timer, now: int)
    requires t.Expired(now)
    ensures t.Lapped(now).period == t.period
    ensures t.Due() + t.period <= t.Lapped(now).Due() <= now + t.period && now < t.Lapped(now).Due()
    ensures now < t.Due() + t.period ==> t.Lapped(now).Due() == t.Due() + t.period
  {
    LapIsAhead(t, now);
    if now < t.Due() + t.period {
      LapKeepsPhase(t, now);
    } else {
      assert 2 <= (now - t.since) / t.period;
    }
  }

  const NANOSECONDS: nat := 1_000_000_000

  /** Both ends of the umbilical divide the configured timeout into two cycles. */
  const CYCLES: nat := 2

  function UmbilicalPeriod(timeout: nat): nat {
    timeout * NANOSECONDS / CYCLES
  }
}
