/** The tether timeout of the sentry: two timer cycles, aligned with the last activity of the child. */
module TetherWatch {
  import opened Common
  import opened Timers
  import opened Heartbeat

  datatype Watch = Watch(count: nat, limit: nat, timer: Timer)

  function TetherPeriod(timeout: nat): nat {
    timeout * NANOSECONDS / CYCLES
  }

  /** The watch whose timer starts to run at the given time. */
  function NewWatch(timeout: nat, now: int): Watch {
    Watch(0, CYCLES, Timer(now, TetherPeriod(timeout)))
  }

  /** pollFdTimerTether_: the new state, and whether the child is to be aborted. */
  function TetherTimer(w: Watch, now: int, child: Observed, lastActivity: int): (Watch, bool) {
    var t := w.(timer := w.timer.Lapped(now));
    match child
    case Gone => (t, true)
    case Suspended => (t.(count := 0), false)
    case Alive =>
      if now < lastActivity + w.timer.period then (w.(count := 0, timer := w.timer.Restarted(lastActivity)), false)
      else if w.count + 1 < w.limit then (t.(count := w.count + 1), false)
      else (t.(count := w.limit), true)
  }

  /** restartFdTimerTether_: the child runs again after a stop. */
  function TetherContinued(w: Watch, now: int): Watch {
    if w.timer.Armed() then w.(count := 0, timer := w.timer.Restarted(now)) else w
  }

  // ------------------------------------------------------------------------------------------
  // In real time

  datatype Config = Config(timeout: nat, lateness: nat) {

    function Period(): nat {
      TetherPeriod(timeout)
    }
  }

  lemma PeriodIsHalf(c: Config)
    ensures 2 * c.Period() == c.timeout * NANOSECONDS
  {
  }

  /** The last recorded activity; the last time at which the silence of the child was excused, by
      activity, by starting or continuing to watch it, or by finding it stopped; when the timer fired
      last; and when the abort began. */
  datatype State = State(now: int, watch: Watch, activity: int, excused: int, fired: int, aborted: Option<int>)

  datatype Event = Tick(to: int) | Activity | ChildContinues | TimerFires(child: Observed)

  /** Time does not pass beyond the moment at which the timer fires at the latest. Activity in the
      instant of a firing is recorded before the firing. The child stays in the process table. */
  predicate Possible(c: Config, s: State, e: Event) {
    s.aborted.None? &&
    match e
    case Tick(to) => s.now <= to <= s.watch.timer.Due() + c.lateness
    case Activity => s.fired < s.now
    case ChildContinues => true
    case TimerFires(child) => !child.Gone? && s.watch.timer.Expired(s.now)
  }

  function Next(s: State, e: Event): State {
    match e
    case Tick(to) => s.(now := to)
    case Activity => s.(activity := s.now, excused := s.now)
    case ChildContinues => s.(watch := TetherContinued(s.watch, s.now), excused := s.now)
    case TimerFires(child) =>
      var (watch, abort) := TetherTimer(s.watch, s.now, child, s.activity);
      s.(watch := watch, fired := s.now,
         excused := if child.Suspended? then s.now else s.excused,
         aborted := if abort then Some(s.now) else None)
  }

  /** The watch starts some time after the tether thread recorded its first activity. */
  function Start(c: Config, activity: int, now: int): State {
    State.State(now, NewWatch(c.timeout, now), activity, now, now - 1, None)
  }

  /** The state after a run, if every event in it was possible. */
  function After(c: Config, activity: int, start: int, events: seq<Event>): Option<State> {
    if events == [] then Some(Start(c, activity, start))
    else
      match After(c, activity, start, events[..|events| - 1])
      case None => None
      case Some(s) => if Possible(c, s, events[|events| - 1]) then Some(Next(s, events[|events| - 1])) else None
  }

  predicate Inv(c: Config, s: State) {
    var w := s.watch;
    var p := c.Period();
    var counted := if w.count == 0 then 0 else p;
    var late := if w.count == 0 || c.lateness < p then 0 else c.lateness;
    && w.limit == CYCLES && w.timer.period == p
    && s.activity <= s.excused <= s.now
    && (s.aborted.None? ==>
          && w.count < CYCLES
          && s.now <= w.timer.Due() + c.lateness
          && w.timer.Due() <= s.excused + counted + p + late)
    && (s.aborted.None? && c.lateness == 0 ==>
          w.timer.Due() == s.excused + counted + p ||
          (s.excused == s.activity && (w.count == 1 ==> w.timer.Due() < s.activity + p)))
    && (s.aborted.None? && w.count == 1 ==> w.timer.Due() <= s.fired + p)
    && (s.aborted.Some? ==>
          && s.aborted.value == s.now
          && s.activity + p <= s.now
          && s.now <= s.excused + 2 * p + (if c.lateness < p then c.lateness else 2 * c.lateness)
          && (c.lateness == 0 ==> s.now == s.excused + 2 * p))
  }

  lemma NextKeepsInv(c: Config, s: State, e: Event)
    requires c.timeout > 0 && Inv(c, s) && Possible(c, s, e)
    ensures Inv(c, Next(s, e))
  {
    PeriodIsHalf(c);
    if e.TimerFires? {
      LapBounds(s.watch.timer, s.now);
      hide Timer.Lapped;
    }
  }

  lemma {:induction false} RunKeepsInv(c: Config, activity: int, start: int, events: seq<Event>)
    requires c.timeout > 0 && activity <= start
    requires After(c, activity, start, events).Some?
    ensures Inv(c, After(c, activity, start, events).value)
  {
    if events == [] {
      PeriodIsHalf(c);
    } else {
      hide Inv, Next, Possible;
      var prefix := events[..|events| - 1];
      RunKeepsInv(c, activity, start, prefix);
      NextKeepsInv(c, After(c, activity, start, prefix).value, events[|events| - 1]);
    }
  }

  /** With firings on time the timeout is exact: the abort begins one timeout after the silence of the
      child was last excused, and until it has begun no more than that time has passed. */
  lemma TimeoutIsExact(c: Config, activity: int, start: int, events: seq<Event>)
    requires c.timeout > 0 && c.lateness == 0 && activity <= start
    requires After(c, activity, start, events).Some?
    ensures var s := After(c, activity, start, events).value;
            && (s.aborted.Some? ==> s.aborted.value - s.excused == c.timeout * NANOSECONDS)
            && (s.aborted.None? ==> s.now - s.excused <= c.timeout * NANOSECONDS)
  {
    PeriodIsHalf(c);
    RunKeepsInv(c, activity, start, events);
  }

  /** However late the firings are, the abort is at most the lateness of two firings late, or of one if
      they are less than a cycle late, and the child has been silent for at least half the timeout when
      it begins. */
  lemma LateTimeoutIsBounded(c: Config, activity: int, start: int, events: seq<Event>)
    requires c.timeout > 0 && activity <= start
    requires After(c, activity, start, events).Some?
    ensures var s := After(c, activity, start, events).value;
            var late := if c.lateness < c.Period() then c.lateness else 2 * c.lateness;
            && s.now - s.excused <= c.timeout * NANOSECONDS + late
            && (s.aborted.Some? ==> c.timeout * NANOSECONDS <= 2 * (s.aborted.value - s.activity))
  {
    PeriodIsHalf(c);
    RunKeepsInv(c, activity, start, events);
  }

  /** A child that is found stopped never triggers the timeout, and gets two fresh cycles. */
  lemma StoppedChildIsExcused(w: Watch, now: int, lastActivity: int)
    requires w.timer.Expired(now)
    ensures var (v, abort) := TetherTimer(w, now, Suspended, lastActivity);
            !abort && v.count == 0 && now < v.timer.Due() <= now + w.timer.period
  {
    LapIsAhead(w.timer, now);
  }

  /** What a firing finds: a child that is gone is aborted at once, as one that has been silent for two cycles; one
      that was active within the last cycle gets two fresh cycles, aligned with its activity. */
  lemma FiringOutcomes(w: Watch, now: int, child: Observed, lastActivity: int)
    requires w.count < w.limit == CYCLES && w.timer.Expired(now)
    ensures var (v, abort) := TetherTimer(w, now, child, lastActivity);
            var recent := now < lastActivity + w.timer.period;
            && (abort <==> child.Gone? || (child.Alive? && !recent && w.count == 1))
            && (child.Alive? && recent ==> v.count == 0 && v.timer.Due() == lastActivity + w.timer.period)
            && (child.Alive? && !recent && w.count == 0 ==>
                  v.count == 1 && now < v.timer.Due() <= now + w.timer.period)
  {
    LapBounds(w.timer, now);
    hide Timer.Lapped;
  }
}
