/** The event loop with which the sentry monitors its child: the umbilical link, the tether watch and
    the termination state machine side by side. ChildMonitor implements it in place. */
module ChildLoop {
  import opened Common
  import opened Timers
  import opened Heartbeat
  import opened TetherWatch
  import opened Escalation

  /** The configured timeouts, in seconds; the signal delay is never zero (see Options). */
  datatype Settings = Settings(tethered: bool, tether: nat, umbilical: nat, signal: nat, hasParent: bool)

  const DISCONNECTION_PERIOD: nat := NANOSECONDS

  /** The parent and tether slots are polled while set; the event pipe always is. */
  datatype Monitor = Monitor(
    link: SentryLink,
    tether: Watch,
    termination: Termination,
    parentSlot: bool,
    tetherSlot: bool,
    childLatchDisabled: bool,
    umbilicalLatchDisabled: bool,
    flushed: bool,
    disconnection: Timer)

  function NewMonitor(c: Settings, now: int): Monitor {
    Monitor(NewSentryLink(UmbilicalPeriod(c.umbilical), now),
            NewWatch(if c.tethered then c.tether else 0, now),
            NewTermination(c.signal * NANOSECONDS),
            c.hasParent, c.tethered, false, false, false, Timer(0, 0))
  }

  /** What the settings mean. The first ping is due at once; a ping is answered within the umbilical timeout, a
      child is silent for no longer than the tether timeout, both of which are two periods, and there is
      no tether timeout without a tether; the signals are the signal delay apart. */
  lemma NewMonitorMeans(c: Settings, now: int)
    ensures var m := NewMonitor(c, now);
            && m.link == Heartbeat.Start(UmbilicalPeriod(c.umbilical), now).sentry
            && 2 * m.link.timer.period == c.umbilical * NANOSECONDS && m.link.timer.Due() == now
            && (c.tethered ==>
                  && 2 * m.tether.timer.period == c.tether * NANOSECONDS
                  && forall lateness, activity ::
                       m.tether == TetherWatch.Start(Config(c.tether, lateness), activity, now).watch)
            && (!c.tethered ==> !m.tether.timer.Armed())
            && m.termination.period == c.signal * NANOSECONDS
            && !m.termination.timer.Armed() && !m.disconnection.Armed()
            && m.parentSlot == c.hasParent && m.tetherSlot == c.tethered
  {
    PeriodIsHalf(Config(c.tether, 0));
    assert UmbilicalPeriod(c.umbilical) == c.umbilical * (NANOSECONDS / CYCLES);
  }

  // ------------------------------------------------------------------------------------------
  // Callbacks

  /** activateFdTimerTermination_: the tether is not watched any longer. */
  function Activated(m: Monitor, cause: Cause, now: int): Monitor {
    m.(tether := m.tether.(timer := m.tether.timer.Disabled()), termination := Activate(m.termination, cause, now))
  }

  /** Losing the umbilical connection starts the termination of the child. */
  function WithLink(m: Monitor, link: SentryLink, now: int): Monitor {
    var t := m.(link := link);
    if link.open then t else Activated(t, Terminate, now)
  }

  function WithWatch(m: Monitor, watch: (Watch, bool), now: int): Monitor {
    var t := m.(tether := watch.0);
    if watch.1 then Activated(t, Abort, now) else t
  }

  /** pollFdCompletion_ */
  predicate Completed(m: Monitor) {
    m.childLatchDisabled && !m.tetherSlot
  }

  datatype Event =
    | ParentEnds(now: int)
    | EchoArrives(now: int)
    | LinkBreaks(now: int)
    | LinkTimerFires(now: int, umbilical: Observed, write: Write)
    | SentryRuns(now: int)
    | UmbilicalRuns(now: int)
    | UmbilicalEnds
    | TetherCloses
    | TetherTimerFires(now: int, child: Observed, lastActivity: int)
    | TerminationFires(now: int)
    | ChildRuns(now: int)
    | ChildEnds(now: int)
    | DisconnectionFires(now: int)

  /** An echo arrives only while a ping is outstanding: Heartbeat.CallbackAssertionsHold. */
  predicate Possible(m: Monitor, e: Event) {
    match e
    case ParentEnds(_) => m.parentSlot
    case EchoArrives(_) => m.link.open && Waiting(m.link)
    case LinkBreaks(_) => m.link.open
    case LinkTimerFires(_, _, _) => m.link.timer.Armed()
    case UmbilicalRuns(_) => !m.umbilicalLatchDisabled
    case TetherCloses => m.tetherSlot
    case TetherTimerFires(_, _, _) => m.tether.timer.Armed()
    case TerminationFires(_) => m.termination.timer.Armed() && PointsAtSignal(m.termination)
    case ChildRuns(_) => !m.childLatchDisabled
    case DisconnectionFires(_) => m.disconnection.Armed()
    case _ => true
  }

  function Next(m: Monitor, e: Event): Monitor
    requires Possible(m, e)
  {
    match e
    case ParentEnds(now) => Activated(m.(parentSlot := false), Terminate, now)
    case EchoArrives(now) => m.(link := SentryEcho(m.link, now))
    case LinkBreaks(now) => WithLink(m, CloseSentryLink(m.link), now)
    case LinkTimerFires(now, umbilical, write) => WithLink(m, SentryTimer(m.link, now, umbilical, write), now)
    case SentryRuns(now) => m.(link := SentryContinued(m.link, now))
    case UmbilicalRuns(now) => m.(link := UmbilicalContinued(m.link, now))
    case UmbilicalEnds => m.(umbilicalLatchDisabled := true)
    case TetherCloses => m.(tetherSlot := false)
    case TetherTimerFires(now, child, lastActivity) =>
      WithWatch(m, TetherTimer(m.tether, now, child, lastActivity), now)
    case TerminationFires(now) => m.(termination := Advanced(m.termination, now))
    case ChildRuns(now) => m.(tether := TetherContinued(m.tether, now))
    case ChildEnds(now) =>
      m.(childLatchDisabled := true, flushed := true,
         disconnection := m.disconnection.Started(now, DISCONNECTION_PERIOD))
    case DisconnectionFires(now) => m.(disconnection := m.disconnection.Lapped(now))
  }

  // ------------------------------------------------------------------------------------------
  // What every step keeps

  predicate TerminationOk(m: Monitor) {
    && m.termination.period > 0
    && (m.termination.plan.Some? <==> m.termination.timer.Armed())
    && (m.termination.plan.Some? ==> PointsAtSignal(m.termination))
    && (m.termination.timer.Armed() ==> !m.tether.timer.Armed())
  }

  predicate CyclesOk(m: Monitor) {
    && (m.link.timer.Armed() ==> m.link.open)
    && m.link.count <= m.link.limit == CYCLES && m.tether.count <= m.tether.limit == CYCLES
    && (m.tether.timer.Armed() ==> m.tether.count < CYCLES)
  }

  predicate Inv(m: Monitor) {
    && TerminationOk(m) && CyclesOk(m)
    && (m.childLatchDisabled <==> m.flushed) && (m.flushed <==> m.disconnection.Armed())
  }

  /** Supervision has ended on one side: the parent is gone or the umbilical link is down. */
  predicate Unsupervised(c: Settings, m: Monitor) {
    (c.hasParent && !m.parentSlot) || !m.link.open
  }

  lemma NextKeepsTermination(m: Monitor, e: Event)
    requires TerminationOk(m) && Possible(m, e)
    ensures TerminationOk(Next(m, e))
    ensures Next(m, e).termination.timer.Armed() <==> m.termination.timer.Armed() || CauseOf(m, e).Some?
  {
    hide SentryTimer, TetherTimer;
    assert e.TetherTimerFires? ==> !m.termination.timer.Armed();
  }

  lemma LinkTimerKeepsCycles(m: Monitor, now: int, umbilical: Observed, write: Write)
    requires CyclesOk(m) && m.link.timer.Armed()
    ensures var link := SentryTimer(m.link, now, umbilical, write);
            link.count <= link.limit == CYCLES && (link.timer.Armed() ==> link.open)
  {
  }

  lemma TetherTimerKeepsCycles(m: Monitor, now: int, child: Observed, lastActivity: int)
    requires CyclesOk(m) && m.tether.timer.Armed()
    ensures var (watch, abort) := TetherTimer(m.tether, now, child, lastActivity);
            watch.count <= watch.limit == CYCLES && (abort || watch.count < CYCLES)
  {
    hide Timer.Lapped;
  }

  lemma NextKeepsCycles(m: Monitor, e: Event)
    requires CyclesOk(m) && Possible(m, e)
    ensures CyclesOk(Next(m, e))
  {
    hide SentryTimer, TetherTimer, Activate, Advanced;
    match e
    case LinkTimerFires(now, umbilical, write) => LinkTimerKeepsCycles(m, now, umbilical, write);
    case TetherTimerFires(now, child, lastActivity) => TetherTimerKeepsCycles(m, now, child, lastActivity);
    case _ =>
  }

  lemma NextKeepsInv(m: Monitor, e: Event)
    requires Inv(m) && Possible(m, e)
    ensures Inv(Next(m, e))
    ensures Next(m, e).termination.timer.Armed() <==> m.termination.timer.Armed() || CauseOf(m, e).Some?
  {
    NextKeepsTermination(m, e);
    NextKeepsCycles(m, e);
    hide TerminationOk, CyclesOk, CauseOf, SentryTimer, TetherTimer;
  }

  lemma LinkTimerKeepsInv(m: Monitor, now: int, umbilical: Observed, write: Write)
    requires Inv(m) && m.link.timer.Armed()
    ensures Inv(Next(m, LinkTimerFires(now, umbilical, write)))
    ensures Next(m, LinkTimerFires(now, umbilical, write)) ==
              WithLink(m, SentryTimer(m.link, now, umbilical, write), now)
    ensures m.link.open && m.link.count <= m.link.limit && (m.termination.plan.Some? <==> m.termination.timer.Armed())
  {
    NextKeepsInv(m, LinkTimerFires(now, umbilical, write));
    hide Inv, SentryTimer;
  }

  lemma TetherTimerKeepsInv(m: Monitor, now: int, child: Observed, lastActivity: int)
    requires Inv(m) && m.tether.timer.Armed()
    ensures Next(m, TetherTimerFires(now, child, lastActivity)) ==
            WithWatch(m, TetherTimer(m.tether, now, child, lastActivity), now)
    ensures Inv(WithWatch(m, TetherTimer(m.tether, now, child, lastActivity), now))
    ensures m.tether.limit == CYCLES && (m.termination.plan.Some? <==> m.termination.timer.Armed())
  {
    NextKeepsInv(m, TetherTimerFires(now, child, lastActivity));
    hide Inv, TetherTimer;
  }

  ghost predicate IsRun(run: seq<Monitor>, events: seq<Event>, c: Settings, start: int) {
    && |run| == |events| + 1
    && run[0] == NewMonitor(c, start)
    && forall k :: 0 <= k < |events| ==> Possible(run[k], events[k]) && run[k + 1] == Next(run[k], events[k])
  }

  lemma SupervisionEndsWithCause(c: Settings, m: Monitor, e: Event)
    requires Possible(m, e) && Unsupervised(c, Next(m, e))
    ensures Unsupervised(c, m) || CauseOf(m, e).Some?
  {
    hide SentryTimer, TetherTimer, Activate, Advanced;
  }

  lemma {:induction false} RunKeepsInv(run: seq<Monitor>, events: seq<Event>, c: Settings, start: int, n: nat)
    requires IsRun(run, events, c, start) && n <= |events| && c.signal > 0
    ensures Inv(run[n])
    ensures Unsupervised(c, run[n]) ==> run[n].termination.timer.Armed()
  {
    if n == 0 {
    } else {
      RunKeepsInv(run, events, c, start, n - 1);
      NextKeepsInv(run[n - 1], events[n - 1]);
      hide Inv, Next, CauseOf;
      if Unsupervised(c, run[n]) {
        SupervisionEndsWithCause(c, run[n - 1], events[n - 1]);
      }
    }
  }

  // ------------------------------------------------------------------------------------------
  // The signals that the child is sent

  /** Why an event makes the sentry terminate the child, if it does. */
  function CauseOf(m: Monitor, e: Event): Option<Cause> {
    match e
    case ParentEnds(_) => Some(Terminate)
    case LinkBreaks(_) => Some(Terminate)
    case LinkTimerFires(now, umbilical, write) =>
      if SentryTimer(m.link, now, umbilical, write).open then None else Some(Terminate)
    case TetherTimerFires(now, child, lastActivity) =>
      if TetherTimer(m.tether, now, child, lastActivity).1 then Some(Abort) else None
    case _ => None
  }

  /** The first cause from event k on. */
  function FirstCause(run: seq<Monitor>, events: seq<Event>, k: nat): Option<Cause>
    requires |run| == |events| + 1 && k <= |events|
    decreases |events| - k
  {
    if k == |events| then None
    else if CauseOf(run[k], events[k]).Some? then CauseOf(run[k], events[k])
    else FirstCause(run, events, k + 1)
  }

  /** The signals sent from event k on. */
  ghost function SignalsFrom(run: seq<Monitor>, events: seq<Event>, c: Settings, start: int, k: nat): seq<int>
    requires IsRun(run, events, c, start) && k <= |events|
    decreases |events| - k
  {
    if k == |events| then []
    else (if events[k].TerminationFires? then [SignalSent(run[k].termination)] else []) +
         SignalsFrom(run, events, c, start, k + 1)
  }

  function FiringsFrom(events: seq<Event>, k: nat): nat
    requires k <= |events|
    decreases |events| - k
  {
    if k == |events| then 0 else (if events[k].TerminationFires? then 1 else 0) + FiringsFrom(events, k + 1)
  }

  function When(e: Event): int {
    match e
    case ParentEnds(now) => now
    case LinkBreaks(now) => now
    case LinkTimerFires(now, _, _) => now
    case TetherTimerFires(now, _, _) => now
    case TerminationFires(now) => now
    case _ => 0
  }

  /** The part of a run that the termination state machine sees. */
  function Trace(run: seq<Monitor>, events: seq<Event>, k: nat): seq<Escalation.Event>
    requires |run| == |events| + 1 && k <= |events|
    decreases |events| - k
  {
    if k == |events| then []
    else
      var rest := Trace(run, events, k + 1);
      if CauseOf(run[k], events[k]).Some? then
        [Activates(CauseOf(run[k], events[k]).value, When(events[k]))] + rest
      else if events[k].TerminationFires? then [Fires(When(events[k]))] + rest
      else rest
  }

  lemma StepProjects(m: Monitor, e: Event)
    requires Inv(m) && Possible(m, e)
    ensures Next(m, e).termination ==
            if CauseOf(m, e).Some? then Activate(m.termination, CauseOf(m, e).value, When(e))
            else if e.TerminationFires? then Advanced(m.termination, When(e))
            else m.termination
  {
  }

  lemma {:induction false} RunProjects(run: seq<Monitor>, events: seq<Event>, c: Settings, start: int, k: nat)
    requires IsRun(run, events, c, start) && k <= |events| && c.signal > 0
    ensures AllPossible(run[k].termination, Trace(run, events, k))
    ensures Signals(run[k].termination, Trace(run, events, k)) == SignalsFrom(run, events, c, start, k)
    ensures Firings(Trace(run, events, k)) == FiringsFrom(events, k)
    ensures !run[k].termination.timer.Armed() ==>
              match FirstCause(run, events, k)
              case None => Trace(run, events, k) == []
              case Some(cause) => Trace(run, events, k) != [] && Trace(run, events, k)[0].Activates? &&
                                  Trace(run, events, k)[0].cause == cause
    decreases |events| - k
  {
    if k < |events| {
      RunKeepsInv(run, events, c, start, k);
      RunProjects(run, events, c, start, k + 1);
      StepProjects(run[k], events[k]);
      NextKeepsInv(run[k], events[k]);
      var here := Trace(run, events, k);
      var rest := Trace(run, events, k + 1);
      assert here != rest ==> here[1..] == rest;
    }
  }

  /** In every run of the monitor, whatever the order of parent death, umbilical loss, tether timeout and
      timer firings: the child is signalled only after one of these causes occurred, the first cause
      alone decides the first signal, every further signal is SIGKILL, and one signal is sent for
      each firing of the termination timer. */
  lemma FirstCauseDecides(run: seq<Monitor>, events: seq<Event>, c: Settings, start: int)
    requires IsRun(run, events, c, start) && c.signal > 0
    ensures SignalsFrom(run, events, c, start, 0) ==
            match FirstCause(run, events, 0)
            case None => []
            case Some(Terminate) => Escalating(SIGTERM, FiringsFrom(events, 0))
            case Some(Abort) => Escalating(SIGABRT, FiringsFrom(events, 0))
  {
    RunProjects(run, events, c, start, 0);
    SignalsEscalate(c.signal * NANOSECONDS, Trace(run, events, 0));
  }

  // ------------------------------------------------------------------------------------------
  // What the slots say about the past

  lemma ClosedStaysClosed(s: SentryLink, now: int, umbilical: Observed, write: Write)
    requires !s.open
    ensures !SentryTimer(s, now, umbilical, write).open
  {
  }

  lemma StepShows(c: Settings, m: Monitor, e: Event)
    requires Possible(m, e) && (m.parentSlot ==> c.hasParent)
    ensures Next(m, e).parentSlot <==> m.parentSlot && !e.ParentEnds?
    ensures Next(m, e).umbilicalLatchDisabled <==> m.umbilicalLatchDisabled || e.UmbilicalEnds?
    ensures Unsupervised(c, Next(m, e)) <==> Unsupervised(c, m) || CauseOf(m, e) == Some(Terminate)
  {
    if e.LinkTimerFires? && !m.link.open {
      ClosedStaysClosed(m.link, e.now, e.umbilical, e.write);
    }
    hide SentryTimer, TetherTimer, Activate, Advanced;
  }

  /** In every run the parent is watched until it ends, the umbilical process is waited for until it has ended,
      and supervision has ended exactly when a cause has occurred that asks the child to terminate: the
      death of the parent, a broken connection, or a timer firing that gave up on the umbilical process. */
  lemma {:induction false} SlotsShow(run: seq<Monitor>, events: seq<Event>, c: Settings, start: int, n: nat)
    requires IsRun(run, events, c, start) && n <= |events|
    ensures run[n].parentSlot <==> c.hasParent && forall k :: 0 <= k < n ==> !events[k].ParentEnds?
    ensures run[n].umbilicalLatchDisabled <==> exists k :: 0 <= k < n && events[k].UmbilicalEnds?
    ensures Unsupervised(c, run[n]) <==> exists k :: 0 <= k < n && CauseOf(run[k], events[k]) == Some(Terminate)
  {
    if n > 0 {
      SlotsShow(run, events, c, start, n - 1);
      StepShows(c, run[n - 1], events[n - 1]);
      hide Next, Possible, CauseOf, Unsupervised;
    }
  }

  /** How many firings in a row have found the umbilical process running since the ping was written, the process was
      last found stopped, or it was last continued; None when no echo is awaited. */
  function Unanswered(events: seq<Event>, n: nat): Option<nat>
    requires n <= |events|
  {
    if n == 0 then None else UnansweredAfter(Unanswered(events, n - 1), events[n - 1])
  }

  function UnansweredAfter(before: Option<nat>, e: Event): Option<nat> {
    match e
    case EchoArrives(_) => None
    case UmbilicalRuns(_) => if before.Some? then Some(0) else None
    case LinkTimerFires(_, umbilical, write) =>
      (match before
       case None => if write.Sent? then Some(0) else None
       case Some(cycles) =>
         if umbilical.Suspended? then Some(0) else if umbilical.Alive? then Some(cycles + 1) else before)
    case _ => before
  }

  /** The event at which the connection is lost. */
  predicate LosesConnection(events: seq<Event>, k: nat)
    requires k < |events|
  {
    LosesConnectionAfter(Unanswered(events, k), events[k])
  }

  predicate LosesConnectionAfter(before: Option<nat>, e: Event) {
    || e.LinkBreaks?
    || (e.LinkTimerFires? && e.write.Broken? && before.None?)
    || UnansweredAfter(before, e) == Some(CYCLES)
  }

  predicate CountsUnanswered(link: SentryLink, unanswered: Option<nat>) {
    && link.limit == CYCLES
    && match unanswered
       case None => link.count == CYCLES
       case Some(cycles) => link.count == cycles < CYCLES
  }

  lemma FiringCountsUnanswered(link: SentryLink, before: Option<nat>, now: int, umbilical: Observed, write: Write)
    requires link.open && CountsUnanswered(link, before)
    ensures var e := LinkTimerFires(now, umbilical, write);
            var fired := SentryTimer(link, now, umbilical, write);
            && (fired.open <==> !LosesConnectionAfter(before, e))
            && (fired.open ==> CountsUnanswered(fired, UnansweredAfter(before, e)))
  {
    hide Timer.Lapped;
  }

  lemma StepCountsUnanswered(m: Monitor, before: Option<nat>, e: Event)
    requires Inv(m) && Possible(m, e)
    requires m.link.open ==> CountsUnanswered(m.link, before)
    ensures var link := Next(m, e).link;
            && (m.link.open ==> (link.open <==> !LosesConnectionAfter(before, e)))
            && (!m.link.open ==> !link.open)
            && (link.open ==> CountsUnanswered(link, UnansweredAfter(before, e)))
  {
    if e.LinkTimerFires? {
      FiringCountsUnanswered(m.link, before, e.now, e.umbilical, e.write);
    }
    hide SentryTimer, TetherTimer, Activate, Advanced;
  }

  /** Exactly when the connection is lost, in every run of the monitor: when it breaks, when a ping cannot be
      written because it is broken, or when the timer has fired twice in a row on a running umbilical process
      that has not answered its ping. */
  lemma {:induction false} ConnectionLostIff(
    run: seq<Monitor>, events: seq<Event>, c: Settings, start: int, n: nat)
    requires IsRun(run, events, c, start) && n <= |events| && c.signal > 0
    ensures run[n].link.open <==> forall k :: 0 <= k < n ==> !LosesConnection(events, k)
    ensures run[n].link.open ==> CountsUnanswered(run[n].link, Unanswered(events, n))
  {
    if n > 0 {
      ConnectionLostIff(run, events, c, start, n - 1);
      RunKeepsInv(run, events, c, start, n - 1);
      StepCountsUnanswered(run[n - 1], Unanswered(events, n - 1), events[n - 1]);
      hide Next, Possible, Inv, UnansweredAfter, LosesConnectionAfter, CountsUnanswered;
      assert LosesConnection(events, n - 1) <==> LosesConnectionAfter(Unanswered(events, n - 1), events[n - 1]);
    }
  }

  // ------------------------------------------------------------------------------------------
  // Termination is never taken back

  /** From the moment supervision has ended, at every later step the termination timer runs and the
      tether is not watched: no later event restarts the watch, or stops the termination. */
  lemma {:induction false} TerminationIsFinal(
    run: seq<Monitor>, events: seq<Event>, c: Settings, start: int, m: nat, n: nat)
    requires IsRun(run, events, c, start) && m <= n <= |events| && c.signal > 0
    requires Unsupervised(c, run[m]) || run[m].termination.timer.Armed()
    ensures run[n].termination.timer.Armed() && !run[n].tether.timer.Armed()
    ensures n < |events| ==> CauseOf(run[n], events[n]) != Some(Abort)
    decreases n - m
  {
    hide Next, CauseOf, Possible, Inv;
    RunKeepsInv(run, events, c, start, n);
    if m < n {
      TerminationIsFinal(run, events, c, start, m, n - 1);
      RunKeepsInv(run, events, c, start, n - 1);
      NextKeepsInv(run[n - 1], events[n - 1]);
    }
    NotWatchedWhenTerminating(run[n]);
    if n < |events| {
      UnwatchedCannotAbort(run[n], events[n]);
    }
  }

  lemma NotWatchedWhenTerminating(m: Monitor)
    requires Inv(m) && m.termination.timer.Armed()
    ensures !m.tether.timer.Armed()
  {
  }

  lemma UnwatchedCannotAbort(m: Monitor, e: Event)
    requires Inv(m) && Possible(m, e) && m.termination.timer.Armed()
    ensures CauseOf(m, e) != Some(Abort)
  {
    hide SentryTimer, TetherTimer;
  }

  // ------------------------------------------------------------------------------------------
  // Completion

  predicate ChildHasEnded(events: seq<Event>, n: nat)
    requires n <= |events|
  {
    exists k :: 0 <= k < n && events[k].ChildEnds?
  }

  predicate TetherHasClosed(events: seq<Event>, n: nat)
    requires n <= |events|
  {
    exists k :: 0 <= k < n && events[k].TetherCloses?
  }

  lemma SlotsStay(m: Monitor, link: SentryLink, watch: (Watch, bool), now: int)
    ensures var t := WithLink(m, link, now);
            t.childLatchDisabled == m.childLatchDisabled && t.tetherSlot == m.tetherSlot
    ensures var t := WithWatch(m, watch, now);
            t.childLatchDisabled == m.childLatchDisabled && t.tetherSlot == m.tetherSlot
  {
    hide Activate;
  }

  lemma StepCompletes(m: Monitor, e: Event)
    requires Possible(m, e)
    ensures Next(m, e).childLatchDisabled <==> m.childLatchDisabled || e.ChildEnds?
    ensures Next(m, e).tetherSlot <==> m.tetherSlot && !e.TetherCloses?
  {
    hide WithLink, WithWatch, SentryTimer, TetherTimer, Activate, Advanced;
    var noWatch := (m.tether, false);
    match e
    case LinkBreaks(now) => SlotsStay(m, CloseSentryLink(m.link), noWatch, now);
    case LinkTimerFires(now, umbilical, write) =>
      SlotsStay(m, SentryTimer(m.link, now, umbilical, write), noWatch, now);
    case TetherTimerFires(now, child, lastActivity) =>
      SlotsStay(m, m.link, TetherTimer(m.tether, now, child, lastActivity), now);
    case _ =>
  }

  lemma FlushedWhenEnded(run: seq<Monitor>, events: seq<Event>, c: Settings, start: int, n: nat)
    requires IsRun(run, events, c, start) && n <= |events| && c.signal > 0
    ensures run[n].childLatchDisabled <==> run[n].flushed
  {
    RunKeepsInv(run, events, c, start, n);
  }

  /** The loop completes exactly when the child has ended and the tether, if there is one, has been shut
      down, whether or not the child was being terminated; the tether thread has then been told to
      flush, so the assertion made when it is closed holds. */
  lemma {:induction false} CompletesIff(run: seq<Monitor>, events: seq<Event>, c: Settings, start: int, n: nat)
    requires IsRun(run, events, c, start) && n <= |events| && c.signal > 0
    ensures run[n].childLatchDisabled <==> ChildHasEnded(events, n)
    ensures run[n].tetherSlot <==> c.tethered && !TetherHasClosed(events, n)
    ensures Completed(run[n]) <==> ChildHasEnded(events, n) && (c.tethered ==> TetherHasClosed(events, n))
    ensures Completed(run[n]) ==> run[n].flushed
  {
    hide Next, Possible;
    FlushedWhenEnded(run, events, c, start, n);
    if n > 0 {
      CompletesIff(run, events, c, start, n - 1);
      var e := events[n - 1];
      StepCompletes(run[n - 1], e);
      assert ChildHasEnded(events, n) <==> ChildHasEnded(events, n - 1) || e.ChildEnds?;
      assert TetherHasClosed(events, n) <==> TetherHasClosed(events, n - 1) || e.TetherCloses?;
    }
  }

  /** The end of the child starts the pings of the tether thread: the first one is due a second later, each
      further one within a second of the one before. */
  lemma ThreadIsPinged(m: Monitor, now: int, firing: int)
    requires Inv(m) && !m.childLatchDisabled && now <= firing
    ensures var t := Next(m, ChildEnds(now));
            && t.disconnection.Due() == now + NANOSECONDS && Possible(t, DisconnectionFires(firing))
            && firing < Next(t, DisconnectionFires(firing)).disconnection.Due() <= firing + NANOSECONDS
            && Next(t, DisconnectionFires(firing)).disconnection.Armed()
  {
    LapIsAhead(Next(m, ChildEnds(now)).disconnection, firing);
  }
}
