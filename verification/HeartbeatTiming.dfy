/** The umbilical heartbeat in real time: when it raises a false alarm, what stopping and continuing the
    processes changes about that, and how fast it notices a sentry or an umbilical process that has stopped.

    Timing assumptions: a timer of the sentry is served at most `lateness` after it first became due, even
    when a continuation triggers it once more; a write may be interrupted and retried within that time; a timer
    of the umbilical process fires at most `lateness` after it was due; a ping is read by the umbilical
    process at most `delay` after it was written, and an echo is read by the sentry at most `delay` after
    its ping was read. The delay includes what the umbilical process does meanwhile: accepting a client
    can keep it for as long as it waits for the signature, up to ACCEPT_TIMEOUT. No write finds the
    connection broken. SIGCONT may reach the sentry at any time, and so may the news that the umbilical
    process was continued; each end may find the other one stopped, or the umbilical process gone,
    whenever its timer fires; but stops are short enough for these bounds to hold. The clock counts
    nanoseconds from the first ping being due. */
module HeartbeatTiming {
  import opened Common
  import opened Timers
  import opened Heartbeat

  datatype Config = Config(timeout: nat, delay: nat, lateness: nat) {

    /** A quarter of the umbilical timeout. */
    function Quarter(): nat {
      timeout * 250_000_000
    }

    function Period(): nat {
      UmbilicalPeriod(timeout)
    }

    /** The condition on the delays under which the heartbeat is quiet. */
    predicate FastEnough() {
      4 * (2 * delay + lateness) < timeout * NANOSECONDS
    }
  }

  lemma PeriodIsHalf(c: Config)
    ensures c.Period() == 2 * c.Quarter() && c.Period() / 2 == c.Quarter()
    ensures c.Quarter() % 2 == 0
    ensures 4 * c.Quarter() == c.timeout * NANOSECONDS
  {
  }

  /** How often the sentry was continued while it waited for the current echo, the most for any echo so far,
      and whether it ever was continued after it had already counted one cycle. */
  datatype Tally = Tally(current: nat, most: nat, struck: bool)

  /** The two ends; the time a ping in flight was written, and the time the ping of an echo under way was
      read; when the last ping was read, and when since then the umbilical process last found the sentry
      stopped; when the last ping was written, and when the umbilical process was last excused: by this
      ping, by a firing that found it stopped or gone, or by its continuation; and until when the
      timer of the sentry is served. */
  datatype State = State(
    now: int,
    sentry: SentryLink,
    umbilical: UmbilicalLink,
    ping: Option<int>,
    echo: Option<int>,
    lastRead: Option<int>,
    foundStopped: Option<int>,
    lastSent: int,
    excused: int,
    fireBy: int,
    sentryHung: bool,
    umbilicalHung: bool,
    alarm: bool,
    tally: Tally)

  datatype Event =
    | Tick(to: int)
    | SentryFires(write: Write, umbilical: Observed)
    | SigCont
    | UmbilicalRuns
    | PingRead
    | UmbilicalFires(sentryStopped: bool)
    | EchoServed
    | EchoRead
    | SentryHangs
    | UmbilicalHangs

  function Start(c: Config): State {
    State.State(0, NewSentryLink(c.Period(), 0), NewUmbilicalLink(c.Period()), None, None, None, None, 0, 0,
                c.lateness, false, false, false, Tally(0, 0, false))
  }

  /** Time does not pass beyond anything that is promised to have happened. */
  predicate InTime(c: Config, s: State, to: int) {
    && (!s.sentryHung && s.sentry.timer.Armed() ==> to <= s.fireBy)
    && (!s.umbilicalHung && s.lastRead.Some? && s.umbilical.timer.Armed() ==>
          to <= s.umbilical.timer.Due() + c.lateness)
    && (s.ping.Some? && s.umbilical.open && !s.umbilicalHung ==> to <= s.ping.value + c.delay)
    && (s.echo.Some? && s.sentry.open && !s.sentryHung &&
        (s.umbilical.latch ==> s.umbilical.open && !s.umbilicalHung) ==>
          to <= s.echo.value + c.delay)
  }

  predicate Possible(c: Config, s: State, e: Event) {
    match e
    case Tick(to) => s.now <= to && InTime(c, s, to)
    case SentryFires(write, _) =>
      !s.sentryHung && s.sentry.timer.Expired(s.now) && (write.Sent? || write.Interrupted?)
    case SigCont => !s.sentryHung
    case UmbilicalRuns => !s.sentryHung
    case PingRead => !s.umbilicalHung && s.umbilical.open && s.ping.Some?
    case UmbilicalFires(_) => !s.umbilicalHung && s.lastRead.Some? && s.umbilical.timer.Expired(s.now)
    case EchoServed => !s.umbilicalHung && s.umbilical.latch
    case EchoRead => !s.sentryHung && s.sentry.open && s.echo.Some? && !s.umbilical.latch
    case SentryHangs => true
    case UmbilicalHangs => true
  }

  function Fired(c: Config, s: State, write: Write, umbilical: Observed): State {
    var sentry := SentryTimer(s.sentry, s.now, umbilical, write);
    var sent := !Waiting(s.sentry) && write.Sent?;
    s.(sentry := sentry,
       ping := if sent then Some(s.now) else s.ping,
       lastSent := if sent then s.now else s.lastSent,
       excused := if sent || (Waiting(s.sentry) && !umbilical.Alive?) then s.now else s.excused,
       fireBy := if sent || Waiting(s.sentry) then sentry.timer.Due() + c.lateness else s.fireBy,
       tally := if sent then s.tally.(current := 0) else s.tally,
       alarm := s.alarm || !sentry.open)
  }

  /** The sentry learns that the umbilical process runs again. */
  function Resumed(c: Config, s: State): State {
    var sentry := UmbilicalContinued(s.sentry, s.now);
    if !Waiting(s.sentry) then s.(sentry := sentry)
    else s.(sentry := sentry, excused := s.now, fireBy := sentry.timer.Due() + c.lateness)
  }

  function Continued(c: Config, s: State): State {
    var t := s.(sentry := SentryContinued(s.sentry, s.now));
    if !Waiting(s.sentry) then t
    else
      var n := s.tally.current + 1;
      t.(fireBy := if s.fireBy <= s.now + c.lateness then s.fireBy else s.now + c.lateness,
         tally := Tally(n, if n <= s.tally.most then s.tally.most else n, s.tally.struck || s.sentry.count == 1))
  }

  function Next(c: Config, s: State, e: Event): State
    requires Possible(c, s, e)
  {
    match e
    case Tick(to) => s.(now := to)
    case SentryFires(write, umbilical) => Fired(c, s, write, umbilical)
    case SigCont => Continued(c, s)
    case UmbilicalRuns => Resumed(c, s)
    case PingRead =>
      s.(umbilical := UmbilicalRead(s.umbilical, Ping, s.now), ping := None, echo := Some(s.now),
         lastRead := Some(s.now), foundStopped := None)
    case UmbilicalFires(stopped) =>
      var umbilical := UmbilicalTimer(s.umbilical, s.now, stopped);
      s.(umbilical := umbilical, alarm := s.alarm || !umbilical.open,
         foundStopped := if stopped then Some(s.now) else s.foundStopped)
    case EchoServed => s.(umbilical := UmbilicalEcho(s.umbilical), echo := if s.umbilical.open then s.echo else None)
    case EchoRead =>
      var sentry := SentryEcho(s.sentry, s.now);
      s.(sentry := sentry, echo := None, fireBy := sentry.timer.Due() + c.lateness)
    case SentryHangs => s.(sentryHung := true)
    case UmbilicalHangs => s.(umbilicalHung := true)
  }

  /** The state after a run, if every event in it was possible. */
  function After(c: Config, events: seq<Event>): Option<State> {
    if events == [] then Some(Start(c))
    else
      match After(c, events[..|events| - 1])
      case None => None
      case Some(s) =>
        if Possible(c, s, events[|events| - 1]) then Some(Next(c, s, events[|events| - 1])) else None
  }

  predicate Healthy(events: seq<Event>) {
    forall k :: 0 <= k < |events| ==> !events[k].SentryHangs? && !events[k].UmbilicalHangs?
  }

  predicate NoContinuation(events: seq<Event>) {
    forall k :: 0 <= k < |events| ==> !events[k].SigCont?
  }

  // ------------------------------------------------------------------------------------------
  // The clocks, for every lateness

  predicate UmbilicalClock(c: Config, s: State) {
    var late := if s.umbilical.count == 0 || c.lateness < c.Period() then 0 else c.lateness;
    var counted := if s.umbilical.count == 0 then 0 else c.Period();
    && s.umbilical.limit == CYCLES && s.umbilical.count <= CYCLES
    && s.umbilical.timer.period == (if s.umbilical.open then c.Period() else 0)
    && (s.umbilical.open && s.lastRead.Some? ==>
          var due := s.umbilical.timer.Due();
          && (!s.umbilicalHung ==> s.now <= due + c.lateness)
          && s.umbilical.count < CYCLES
          && s.lastRead.value + c.Quarter() + counted <= due
          && due <= (match s.foundStopped
                     case None => s.lastRead.value + c.Quarter() + counted + late
                     case Some(f) => f + c.Period() + counted + late))
  }

  /** The wait for an echo: from above, however often the sentry is continued, and from below. */
  predicate WaitClock(c: Config, s: State) {
    var due := s.sentry.timer.Due();
    // what the cycles counted so far take at least, and how late they were at most
    var counted := if s.sentry.count == 0 then 0 else c.Period();
    var late := if s.sentry.count == 0 then 0 else c.lateness;
    && s.lastSent <= s.excused <= s.now && s.sentry.count <= 1 && due <= s.fireBy
    && s.fireBy <= s.excused + counted + late + c.Period() + c.lateness
    && (s.tally.current == 0 ==>
          && s.fireBy == due + c.lateness
          && (c.lateness < c.Period() ==> due <= s.excused + counted + c.Period())
          && s.lastSent + counted + c.Period() - c.lateness <= due
          && s.lastSent + counted < due)
    && (s.sentry.count == 0 || !s.tally.struck ==> s.lastSent + counted <= due)
  }

  predicate SentryClock(c: Config, s: State) {
    && s.sentry.limit == CYCLES && s.sentry.count <= CYCLES
    && s.sentry.timer.period == (if s.sentry.open then c.Period() else 0)
    && s.tally.current <= s.tally.most
    && (s.sentry.open && !s.sentryHung ==> s.now <= s.fireBy)
    && (s.sentry.open && Waiting(s.sentry) ==> WaitClock(c, s))
    && (s.sentry.open && !Waiting(s.sentry) ==> s.sentry.timer.Due() <= s.fireBy <= s.sentry.timer.Due() + c.lateness)
  }

  lemma UmbilicalFiringKeepsClock(c: Config, s: State, stopped: bool)
    requires c.timeout > 0 && UmbilicalClock(c, s) && Possible(c, s, UmbilicalFires(stopped))
    ensures UmbilicalClock(c, Next(c, s, UmbilicalFires(stopped)))
  {
    PeriodIsHalf(c);
    LapBounds(s.umbilical.timer, s.now);
    hide Timer.Lapped;
  }

  /** The events of the sentry leave the umbilical process alone. */
  predicate SameUmbilical(s: State, t: State) {
    && t.umbilical == s.umbilical && t.now == s.now && t.lastRead == s.lastRead
    && t.foundStopped == s.foundStopped && t.umbilicalHung == s.umbilicalHung
  }

  lemma SentryLeavesUmbilical(c: Config, s: State, write: Write, umbilical: Observed)
    ensures SameUmbilical(s, Fired(c, s, write, umbilical))
    ensures SameUmbilical(s, Continued(c, s)) && SameUmbilical(s, Resumed(c, s))
  {
    hide SentryTimer, SentryContinued, UmbilicalContinued;
  }

  lemma NextKeepsUmbilicalClock(c: Config, s: State, e: Event)
    requires c.timeout > 0 && UmbilicalClock(c, s) && Possible(c, s, e)
    ensures UmbilicalClock(c, Next(c, s, e))
  {
    hide Fired, Continued, Resumed, UmbilicalTimer;
    PeriodIsHalf(c);
    match e
    case UmbilicalFires(stopped) => UmbilicalFiringKeepsClock(c, s, stopped);
    case SentryFires(write, umbilical) => SentryLeavesUmbilical(c, s, write, umbilical);
    case SigCont => SentryLeavesUmbilical(c, s, Sent, Alive);
    case UmbilicalRuns => SentryLeavesUmbilical(c, s, Sent, Alive);
    case _ =>
  }

  lemma WaitingFiringKeepsClock(c: Config, s: State, write: Write, umbilical: Observed)
    requires c.timeout > 0 && SentryClock(c, s) && Possible(c, s, SentryFires(write, umbilical)) && Waiting(s.sentry)
    ensures SentryClock(c, Fired(c, s, write, umbilical))
  {
    LapBounds(s.sentry.timer, s.now);
    hide Timer.Lapped;
  }

  lemma SendingKeepsClock(c: Config, s: State, write: Write, umbilical: Observed)
    requires c.timeout > 0 && SentryClock(c, s) && Possible(c, s, SentryFires(write, umbilical)) && !Waiting(s.sentry)
    ensures SentryClock(c, Fired(c, s, write, umbilical))
  {
    LapBounds(s.sentry.timer, s.now);
    hide Timer.Lapped;
  }

  lemma ContinuationKeepsClock(c: Config, s: State)
    requires c.timeout > 0 && SentryClock(c, s) && Possible(c, s, SigCont)
    ensures SentryClock(c, Continued(c, s))
  {
  }

  lemma ResumptionKeepsClock(c: Config, s: State)
    requires c.timeout > 0 && SentryClock(c, s) && Possible(c, s, UmbilicalRuns)
    ensures SentryClock(c, Resumed(c, s))
  {
    PeriodIsHalf(c);
  }

  lemma NextKeepsSentryClock(c: Config, s: State, e: Event)
    requires c.timeout > 0 && SentryClock(c, s) && Possible(c, s, e)
    ensures SentryClock(c, Next(c, s, e))
  {
    hide Fired, Continued, Resumed, UmbilicalTimer, UmbilicalRead;
    match e
    case SentryFires(write, umbilical) =>
      if Waiting(s.sentry) {
        WaitingFiringKeepsClock(c, s, write, umbilical);
      } else {
        SendingKeepsClock(c, s, write, umbilical);
      }
    case SigCont => ContinuationKeepsClock(c, s);
    case UmbilicalRuns => ResumptionKeepsClock(c, s);
    case _ =>
  }

  lemma StartKeepsClocks(c: Config)
    requires c.timeout > 0
    ensures UmbilicalClock(c, Start(c)) && SentryClock(c, Start(c))
  {
    PeriodIsHalf(c);
  }

  lemma {:induction false} RunKeepsClocks(c: Config, events: seq<Event>)
    requires c.timeout > 0 && After(c, events).Some?
    ensures UmbilicalClock(c, After(c, events).value) && SentryClock(c, After(c, events).value)
  {
    hide UmbilicalClock, SentryClock, Next, Possible;
    if events == [] {
      StartKeepsClocks(c);
    } else {
      var prefix := events[..|events| - 1];
      RunKeepsClocks(c, prefix);
      NextKeepsUmbilicalClock(c, After(c, prefix).value, events[|events| - 1]);
      NextKeepsSentryClock(c, After(c, prefix).value, events[|events| - 1]);
    }
  }

  // ------------------------------------------------------------------------------------------
  // One message

  /** There is at most one message, and the sentry waits for it. */
  predicate OneMessage(s: State) {
    && (s.ping.Some? ==> s.echo.None? && !s.umbilical.latch)
    && (s.umbilical.latch ==> s.echo.Some?)
    && (s.sentry.open && (s.ping.Some? || s.echo.Some?) ==> Waiting(s.sentry))
  }

  lemma NextKeepsOneMessage(c: Config, s: State, e: Event)
    requires c.timeout > 0 && SentryClock(c, s) && OneMessage(s) && Possible(c, s, e)
    ensures OneMessage(Next(c, s, e))
  {
    hide Timer.Lapped, WaitClock;
  }

  /** In every run at most one ping, latched request or echo is under way, and the sentry waits for it unless it
      has given up. */
  lemma {:induction false} OneMessageUnderWay(c: Config, events: seq<Event>)
    requires c.timeout > 0 && After(c, events).Some?
    ensures OneMessage(After(c, events).value)
  {
    hide OneMessage, SentryClock, UmbilicalClock, Next, Possible;
    if events == [] {
      StartHasNoMessage(c);
    } else {
      var prefix := events[..|events| - 1];
      OneMessageUnderWay(c, prefix);
      RunKeepsClocks(c, prefix);
      NextKeepsOneMessage(c, After(c, prefix).value, events[|events| - 1]);
    }
  }

  lemma StartHasNoMessage(c: Config)
    ensures OneMessage(Start(c))
  {
  }

  // ------------------------------------------------------------------------------------------
  // Bounded detection

  /** Once the sentry stops pinging, the umbilical process that still runs has closed the connection three
      quarters of the timeout after the last ping it read, or a whole timeout after it last found the
      sentry stopped; plus the lateness of its two timer firings, or of one if firings are less than a
      period late. */
  lemma SilentSentryIsDetected(c: Config, events: seq<Event>)
    requires c.timeout > 0 && After(c, events).Some?
    ensures var s := After(c, events).value;
            var late := if c.lateness < c.Period() then c.lateness else 2 * c.lateness;
            !s.umbilicalHung && s.umbilical.open && s.lastRead.Some? ==>
              match s.foundStopped
              case None => 4 * (s.now - s.lastRead.value - late) <= 3 * (c.timeout * NANOSECONDS)
              case Some(found) => s.now - found - late <= c.timeout * NANOSECONDS
  {
    PeriodIsHalf(c);
    RunKeepsClocks(c, events);
    hide SentryClock, After;
  }

  /** Once the umbilical process stops echoing, the sentry that still runs has closed the connection, and
      with it started the termination of the child, one timeout after the umbilical process was last
      excused, plus the lateness of its two timer firings; continuations of the sentry do not put it
      off. The lateness counts once if firings are less than a period late and the sentry was not
      continued since it sent the ping. */
  lemma SilentUmbilicalIsDetected(c: Config, events: seq<Event>)
    requires c.timeout > 0 && After(c, events).Some?
    ensures var s := After(c, events).value;
            var late := if c.lateness < c.Period() && s.tally.current == 0 then c.lateness else 2 * c.lateness;
            !s.sentryHung && s.sentry.open && Waiting(s.sentry) ==>
              s.now - s.excused - late <= c.timeout * NANOSECONDS
  {
    PeriodIsHalf(c);
    RunKeepsClocks(c, events);
    hide UmbilicalClock;
  }

  /** The sentry gives up only when the second cycle has passed. */
  lemma GivesUpWhenDue(c: Config, s: State, write: Write, umbilical: Observed)
    requires Possible(c, s, SentryFires(write, umbilical)) && s.sentry.open &&
              !Fired(c, s, write, umbilical).sentry.open
    requires s.sentry.limit == CYCLES && s.sentry.count <= CYCLES
    ensures Waiting(s.sentry) && s.sentry.count == 1 && s.sentry.timer.Due() <= s.now
  {
    hide Timer.Lapped;
  }

  /** How long the sentry waits at least before it gives up on a ping: a whole timeout, less the lateness of
      the ping, and always more than half of it, if it was not continued meanwhile; half the timeout
      if it was continued, but never after it had counted one cycle. */
  lemma SentryIsPatient(c: Config, events: seq<Event>, write: Write, umbilical: Observed)
    requires c.timeout > 0 && After(c, events).Some?
    requires Possible(c, After(c, events).value, SentryFires(write, umbilical))
    requires After(c, events).value.sentry.open
    requires !Next(c, After(c, events).value, SentryFires(write, umbilical)).sentry.open
    ensures var s := After(c, events).value;
            && (s.tally.current == 0 ==> c.timeout * NANOSECONDS <= s.now - s.lastSent + c.lateness)
            && (s.tally.current == 0 ==> c.timeout * NANOSECONDS < 2 * (s.now - s.lastSent))
            && (!s.tally.struck ==> c.timeout * NANOSECONDS <= 2 * (s.now - s.lastSent))
  {
    PeriodIsHalf(c);
    RunKeepsClocks(c, events);
    GivesUpWhenDue(c, After(c, events).value, write, umbilical);
    hide UmbilicalClock, After, Possible, Next;
  }

  // ------------------------------------------------------------------------------------------
  // No false alarm

  /** Where the one message is, and how old it can be. */
  predicate OnTime(c: Config, s: State) {
    && s.sentry.open && s.umbilical.open && !s.alarm && !s.sentryHung && !s.umbilicalHung && !s.tally.struck
    && (!Waiting(s.sentry) ==>
          && s.ping.None? && s.echo.None? && !s.umbilical.latch
          && (s.lastRead.Some? ==> s.fireBy <= s.lastRead.value + c.delay + c.Period() + c.lateness))
    && (Waiting(s.sentry) ==>
          && (s.tally.current == 0 ==> s.sentry.count == 0)
          && (s.ping.Some? <==> s.echo.None?)
          && (s.ping.Some? ==>
                && s.ping.value == s.lastSent && s.now <= s.lastSent + c.delay && !s.umbilical.latch
                && (s.lastRead.Some? ==> s.lastSent <= s.lastRead.value + c.delay + c.Period() + c.lateness))
          && (s.echo.Some? ==>
                && s.lastRead == s.echo && s.echo.value <= s.lastSent + c.delay && s.now <= s.echo.value + c.delay))
  }

  /** The echo is read long before the second cycle has passed, and before the first one if the sentry was not
      continued. */
  lemma EchoComesFirst(c: Config, s: State)
    requires c.timeout > 0 && c.FastEnough()
    requires SentryClock(c, s) && OnTime(c, s) && Waiting(s.sentry)
    ensures s.sentry.timer.Due() <= s.now ==> s.sentry.count == 0 && s.tally.current > 0
  {
    PeriodIsHalf(c);
  }

  lemma SentryFiringKeepsOnTime(c: Config, s: State, write: Write, umbilical: Observed)
    requires c.timeout > 0 && c.FastEnough()
    requires SentryClock(c, s) && OnTime(c, s) && Possible(c, s, SentryFires(write, umbilical))
    ensures OnTime(c, Fired(c, s, write, umbilical))
  {
    if Waiting(s.sentry) {
      EchoComesFirst(c, s);
      hide Timer.Lapped, Config.FastEnough, WaitClock;
    } else {
      hide Timer.Lapped, Config.FastEnough, WaitClock;
    }
  }

  lemma UmbilicalFiringKeepsOnTime(c: Config, s: State, stopped: bool)
    requires c.timeout > 0 && c.FastEnough()
    requires UmbilicalClock(c, s) && SentryClock(c, s) && OnTime(c, s) && Possible(c, s, UmbilicalFires(stopped))
    ensures OnTime(c, Next(c, s, UmbilicalFires(stopped)))
  {
    PeriodIsHalf(c);
    hide Timer.Lapped;
  }

  lemma ContinuationKeepsOnTime(c: Config, s: State)
    requires c.timeout > 0 && OnTime(c, s) && SentryClock(c, s)
    requires !(Waiting(s.sentry) && s.sentry.count == 1)
    ensures OnTime(c, Continued(c, s))
  {
  }

  lemma ResumptionKeepsOnTime(c: Config, s: State)
    requires c.timeout > 0 && OnTime(c, s) && SentryClock(c, s)
    ensures OnTime(c, Resumed(c, s))
  {
  }

  lemma NextKeepsOnTime(c: Config, s: State, e: Event)
    requires c.timeout > 0 && c.FastEnough()
    requires UmbilicalClock(c, s) && SentryClock(c, s) && OnTime(c, s)
    requires Possible(c, s, e) && !e.SentryHangs? && !e.UmbilicalHangs? && !Next(c, s, e).tally.struck
    ensures OnTime(c, Next(c, s, e))
  {
    match e
    case SentryFires(write, umbilical) => SentryFiringKeepsOnTime(c, s, write, umbilical);
    case UmbilicalFires(stopped) => UmbilicalFiringKeepsOnTime(c, s, stopped);
    case SigCont => ContinuationKeepsOnTime(c, s);
    case UmbilicalRuns => ResumptionKeepsOnTime(c, s);
    case _ =>
      hide Fired, Continued, Resumed, UmbilicalTimer;
      PeriodIsHalf(c);
  }

  lemma TallyGrows(c: Config, s: State, e: Event)
    requires Possible(c, s, e)
    ensures s.tally.most <= Next(c, s, e).tally.most
    ensures s.tally.struck ==> Next(c, s, e).tally.struck
    ensures Next(c, s, e).tally.struck ==>
              s.tally.struck || (e.SigCont? && Waiting(s.sentry) && s.sentry.count == 1)
    ensures e.SigCont? && Waiting(s.sentry) ==> s.tally.current < Next(c, s, e).tally.most
  {
    hide SentryTimer, SentryContinued, UmbilicalContinued, UmbilicalTimer, UmbilicalRead;
  }

  /** With delays that are small enough, every healthy run in which the sentry is never continued after it has
      counted one cycle is quiet. */
  lemma {:induction false} FastEnoughIsQuiet(c: Config, events: seq<Event>)
    requires c.timeout > 0 && c.FastEnough()
    requires After(c, events).Some? && Healthy(events) && !After(c, events).value.tally.struck
    ensures OnTime(c, After(c, events).value)
  {
    hide OnTime, UmbilicalClock, SentryClock, Next, Possible;
    if events == [] {
      StartIsOnTime(c);
    } else {
      var prefix := events[..|events| - 1];
      TallyGrows(c, After(c, prefix).value, events[|events| - 1]);
      FastEnoughIsQuiet(c, prefix);
      RunKeepsClocks(c, prefix);
      NextKeepsOnTime(c, After(c, prefix).value, events[|events| - 1]);
    }
  }

  lemma StartIsOnTime(c: Config)
    ensures OnTime(c, Start(c))
  {
  }

  /** One continuation for each ping is harmless: the sentry has then counted no cycle before. */
  lemma {:induction false} OneContinuationIsHarmless(c: Config, events: seq<Event>)
    requires c.timeout > 0 && c.FastEnough()
    requires After(c, events).Some? && Healthy(events) && After(c, events).value.tally.most <= 1
    ensures !After(c, events).value.tally.struck
  {
    hide UmbilicalClock, SentryClock, Next, Possible;
    if events == [] {
    } else {
      var prefix := events[..|events| - 1];
      var s := After(c, prefix).value;
      TallyGrows(c, s, events[|events| - 1]);
      OneContinuationIsHarmless(c, prefix);
      FastEnoughIsQuiet(c, prefix);
    }
  }

  // ------------------------------------------------------------------------------------------
  // False alarms

  lemma Extend(c: Config, events: seq<Event>, s: State, e: Event) returns (longer: seq<Event>, t: State)
    requires After(c, events) == Some(s) && Healthy(events)
    requires Possible(c, s, e) && !e.SentryHangs? && !e.UmbilicalHangs?
    ensures longer == events + [e] && t == Next(c, s, e)
    ensures After(c, longer) == Some(t) && Healthy(longer)
  {
    longer, t := events + [e], Next(c, s, e);
    assert longer[..|longer| - 1] == events;
  }

  /** The first ping is written at once; it and its echo both take d. */
  lemma SlowEcho(c: Config, d: nat) returns (events: seq<Event>, s: State)
    requires c.timeout > 0 && d <= c.delay && 2 * d <= c.Quarter()
    ensures After(c, events) == Some(s) && Healthy(events)
    ensures var p := c.Period();
            s == State.State(2 * d,
                             SentryLink(true, false, CYCLES, CYCLES, Timer(2 * d, p)),
                             UmbilicalLink(true, false, 0, CYCLES, Timer(d - c.Quarter(), p), false),
                             None, None, Some(d), None, 0, 0, 2 * d + p + c.lateness, false, false, false,
                             Tally(0, 0, false))
  {
    hide After;
    PeriodIsHalf(c);
    s := Start(c);
    events := [];
    assert After(c, events) == Some(s) by { StartIsAfterNothing(c); }
    LapKeepsPhase(s.sentry.timer, 0);
    events, s := Extend(c, events, s, SentryFires(Sent, Alive));
    events, s := Extend(c, events, s, Tick(d));
    events, s := Extend(c, events, s, PingRead);
    events, s := Extend(c, events, s, EchoServed);
    events, s := Extend(c, events, s, Tick(2 * d));
    events, s := Extend(c, events, s, EchoRead);
  }

  lemma StartIsAfterNothing(c: Config)
    ensures After(c, []) == Some(Start(c))
  {
  }

  /** The second ping is written three quarters of the timeout after the first one; the umbilical process has
      counted a cycle before. */
  lemma SlowPing(c: Config, d: nat) returns (events: seq<Event>, s: State)
    requires c.timeout > 0 && d <= c.delay && 2 * d <= c.Quarter() && c.Quarter() <= 2 * d + c.lateness
    ensures After(c, events) == Some(s) && Healthy(events)
    ensures var p := c.Period();
            var q := c.Quarter();
            s == State.State(3 * q,
                             SentryLink(true, false, 0, CYCLES, Timer(2 * d + p, p)),
                             UmbilicalLink(true, false, 1, CYCLES, Timer(d + q, p), false),
                             Some(3 * q), None, Some(d), None, 3 * q, 3 * q, 2 * d + 2 * p + c.lateness,
                             false, false, false,
                             Tally(0, 0, false))
  {
    hide After;
    PeriodIsHalf(c);
    var q := c.Quarter();
    events, s := SlowEcho(c, d);
    events, s := Extend(c, events, s, Tick(d + q));
    LapKeepsPhase(s.umbilical.timer, s.now);
    events, s := Extend(c, events, s, UmbilicalFires(false));
    events, s := Extend(c, events, s, Tick(3 * q));
    LapKeepsPhase(s.sentry.timer, s.now);
    events, s := Extend(c, events, s, SentryFires(Sent, Alive));
  }

  /** The slowest run that the bounds allow, when they allow too much: the second ping arrives just as
      the umbilical process gives up on it. */
  lemma SlowRunAlarms(c: Config) returns (events: seq<Event>)
    requires c.timeout > 0 && !c.FastEnough()
    ensures After(c, events).Some? && Healthy(events)
    ensures After(c, events).value.alarm && After(c, events).value.tally.most == 0
  {
    hide After;
    PeriodIsHalf(c);
    var q := c.Quarter();
    var d := if c.delay <= q / 2 then c.delay else q / 2;
    var s;
    events, s := SlowPing(c, d);
    events, s := Extend(c, events, s, Tick(d + 3 * q));
    events, s := Extend(c, events, s, UmbilicalFires(false));
  }

  /** Whatever the delays: a sentry that has counted one cycle and is continued gives up at once, if its
      timer is served before the echo is read. */
  lemma StrikeAlarms(c: Config, events: seq<Event>)
    requires c.timeout > 0 && After(c, events).Some? && Healthy(events) && !After(c, events).value.sentryHung
    requires var s := After(c, events).value; s.sentry.open && Waiting(s.sentry) && s.sentry.count == 1
    ensures var longer := events + [SigCont] + [SentryFires(Sent, Alive)];
            After(c, longer).Some? && Healthy(longer) && After(c, longer).value.alarm &&
            After(c, longer).value.now == After(c, events).value.now
  {
    RunKeepsClocks(c, events);
    hide After, UmbilicalClock;
    var run, s := Extend(c, events, After(c, events).value, SigCont);
    run, s := Extend(c, run, s, SentryFires(Sent, Alive));
  }

  /** A continuation right after the first ping makes the sentry count a cycle at once. */
  lemma CycleCountedAtOnce(c: Config) returns (events: seq<Event>, s: State)
    requires c.timeout > 0
    ensures After(c, events) == Some(s) && Healthy(events)
    ensures s == Start(c).(sentry := SentryLink(true, false, 1, CYCLES, Timer(0, c.Period())), ping := Some(0),
                           fireBy := c.Period() + c.lateness, tally := Tally(1, 1, false))
  {
    hide After;
    s := Start(c);
    events := [];
    assert After(c, events) == Some(s) by { StartIsAfterNothing(c); }
    PeriodIsHalf(c);
    LapKeepsPhase(s.sentry.timer, 0);
    events, s := Extend(c, events, s, SentryFires(Sent, Alive));
    events, s := Extend(c, events, s, SigCont);
    events, s := Extend(c, events, s, SentryFires(Sent, Alive));
  }

  /** Two continuations while one ping is outstanding are enough for a false alarm, however fast everything
      is: the sentry gives up in the instant in which it sent the ping. */
  lemma TwoContinuationsAlarm(c: Config) returns (events: seq<Event>)
    requires c.timeout > 0
    ensures After(c, events).Some? && Healthy(events)
    ensures var s := After(c, events).value; s.alarm && s.tally.most == 2 && s.now == 0
  {
    hide After;
    PeriodIsHalf(c);
    var s;
    events, s := CycleCountedAtOnce(c);
    events, s := Extend(c, events, s, SigCont);
    events, s := Extend(c, events, s, SentryFires(Sent, Alive));
  }

  // ------------------------------------------------------------------------------------------
  // Exactly when

  /** Neither end ever raises a false alarm, in any healthy run of any length in which the sentry is
      continued at most k times while it waits for an echo, and any number of times while it does not:
      exactly when twice the delay plus the lateness stays below a quarter of the timeout, and k is at
      most one. */
  lemma NoFalseAlarmIff(c: Config, k: nat)
    requires c.timeout > 0
    ensures (forall events {:trigger After(c, events)} ::
               After(c, events).Some? && Healthy(events) && After(c, events).value.tally.most <= k ==>
                 !After(c, events).value.alarm) <==>
            4 * (2 * c.delay + c.lateness) < c.timeout * NANOSECONDS && k <= 1
  {
    if !c.FastEnough() {
      var events := SlowRunAlarms(c);
    } else if 2 <= k {
      var events := TwoContinuationsAlarm(c);
    } else {
      forall events | After(c, events).Some? && Healthy(events) && After(c, events).value.tally.most <= k
        ensures !After(c, events).value.alarm
      {
        OneContinuationIsHarmless(c, events);
        FastEnoughIsQuiet(c, events);
      }
    }
  }

  /** How long accepting a client can wait for its signature. */
  const ACCEPT_TIMEOUT: nat := 30 * NANOSECONDS

  /** What this means when clients may be slow. With a delay as long as accepting a client can take, the
      heartbeat is quiet, even if the sentry is never continued, if and only if the umbilical timeout
      exceeds four minutes and four latenesses: with the default of thirty seconds one slow client is
      enough for a false alarm. */
  lemma SlowClientIsHarmlessIff(c: Config)
    requires c.timeout > 0 && c.delay == ACCEPT_TIMEOUT
    ensures (forall events {:trigger After(c, events)} ::
               After(c, events).Some? && Healthy(events) && After(c, events).value.tally.most == 0 ==>
                 !After(c, events).value.alarm) <==>
            240 * NANOSECONDS + 4 * c.lateness < c.timeout * NANOSECONDS
  {
    NoFalseAlarmIff(c, 0);
  }

  lemma {:induction false} StruckOnlyByContinuation(c: Config, events: seq<Event>, later: seq<Event>)
    requires After(c, events).Some? && !After(c, events).value.tally.struck
    requires After(c, events + later).Some? && NoContinuation(later)
    ensures !After(c, events + later).value.tally.struck
  {
    hide Next, Possible;
    if later == [] {
      assert events + later == events;
    } else {
      var all := events + later;
      assert all[..|all| - 1] == events + later[..|later| - 1];
      StruckOnlyByContinuation(c, events, later[..|later| - 1]);
      TallyGrows(c, After(c, all[..|all| - 1]).value, all[|all| - 1]);
    }
  }

  /** Exactly when a continuation can cost a fast enough heartbeat its link. Consider any healthy run in
      which no continuation has struck so far: the continuation that comes next makes a false alarm
      possible, without any further one, if and only if the sentry is waiting for an echo and has
      already counted one cycle. At any other moment every healthy run that goes on without further
      continuations is quiet. */
  lemma ContinuationMayAlarmIff(c: Config, events: seq<Event>)
    requires c.timeout > 0 && c.FastEnough()
    requires After(c, events).Some? && Healthy(events) && !After(c, events).value.tally.struck
    ensures var s := After(c, events).value;
            (exists later {:trigger After(c, events + [SigCont] + later)} ::
               && After(c, events + [SigCont] + later).Some? && Healthy(later) && NoContinuation(later)
               && After(c, events + [SigCont] + later).value.alarm) <==>
            Waiting(s.sentry) && s.sentry.count == 1
  {
    var s := After(c, events).value;
    FastEnoughIsQuiet(c, events);
    if Waiting(s.sentry) && s.sentry.count == 1 {
      StrikeAlarms(c, events);
      assert Healthy([SentryFires(Sent, Alive)]) && NoContinuation([SentryFires(Sent, Alive)]);
    } else {
      var run, t := Extend(c, events, s, SigCont);
      assert !t.tally.struck;
      forall later | After(c, run + later).Some? && Healthy(later) && NoContinuation(later)
        ensures !After(c, run + later).value.alarm
      {
        StruckOnlyByContinuation(c, run, later);
        assert Healthy(run + later);
        FastEnoughIsQuiet(c, run + later);
      }
    }
  }
}
