/** The event loops of the sentry and of the umbilical process in real time, with all their callbacks in any
    order: the callbacks of the umbilical connection come as HeartbeatTiming lets them, those of the tether as
    TetherWatch does, and all others at any time.

    The timing assumptions are those of HeartbeatTiming and TetherWatch. No call fails, and the child stays
    in the process table. */
module Supervision {
  import opened Common
  import opened Timers
  import Heartbeat
  import HeartbeatTiming
  import TetherWatch
  import Escalation
  import ChildLoop
  import UmbilicalLoop

  datatype Config = Config(settings: ChildLoop.Settings, hasServer: bool, delay: nat, lateness: nat) {

    function Link(): HeartbeatTiming.Config {
      HeartbeatTiming.Config(settings.umbilical, delay, lateness)
    }

    function Tether(): TetherWatch.Config {
      TetherWatch.Config(if settings.tethered then settings.tether else 0, lateness)
    }
  }

  /** The two loops, and what the clocks of the connection and of the tether say; the latter runs until the
      tether is no longer watched. */
  datatype System = System(
    link: HeartbeatTiming.State,
    watch: TetherWatch.State,
    sentry: ChildLoop.Monitor,
    umbilical: UmbilicalLoop.Loop)

  datatype Event =
    | Tick(to: int)
    | Link(linked: HeartbeatTiming.Event)
    | Tether(watched: TetherWatch.Event)
    | Sentry(monitored: ChildLoop.Event)
    | Umbilical(served: UmbilicalLoop.Event)

  /** The loop of the sentry starts at time 0, some time after the tether thread. */
  function Start(c: Config, activity: int): System {
    System(HeartbeatTiming.Start(c.Link()),
           TetherWatch.Start(c.Tether(), activity, 0),
           ChildLoop.NewMonitor(c.settings, 0),
           UmbilicalLoop.NewLoop(UmbilicalPeriod(c.settings.umbilical), c.hasServer))
  }

  predicate Watched(s: System) {
    s.sentry.tether.timer.Armed()
  }

  // ------------------------------------------------------------------------------------------
  // Which callback an event is

  function SentryCallback(t: HeartbeatTiming.State, e: HeartbeatTiming.Event): Option<ChildLoop.Event> {
    match e
    case SentryFires(write, umbilical) => Some(ChildLoop.LinkTimerFires(t.now, umbilical, write))
    case SigCont => Some(ChildLoop.SentryRuns(t.now))
    case UmbilicalRuns => Some(ChildLoop.UmbilicalRuns(t.now))
    case EchoRead => Some(ChildLoop.EchoArrives(t.now))
    case _ => None
  }

  function UmbilicalCallback(t: HeartbeatTiming.State, e: HeartbeatTiming.Event): Option<UmbilicalLoop.Event> {
    match e
    case PingRead => Some(UmbilicalLoop.Reads(Heartbeat.Ping, t.now))
    case UmbilicalFires(stopped) => Some(UmbilicalLoop.TimerFires(t.now, stopped))
    case EchoServed => Some(UmbilicalLoop.Echoes)
    case _ => None
  }

  function TetherCallback(t: TetherWatch.State, e: TetherWatch.Event): Option<ChildLoop.Event> {
    match e
    case TimerFires(child) => Some(ChildLoop.TetherTimerFires(t.now, child, t.activity))
    case ChildContinues => Some(ChildLoop.ChildRuns(t.now))
    case _ => None
  }

  /** The callbacks that have nothing to do with the connection or a tether that is watched. */
  predicate IsOther(s: System, e: ChildLoop.Event) {
    e.ParentEnds? || e.UmbilicalEnds? || e.TetherCloses? || e.TerminationFires? || e.ChildEnds? ||
    e.DisconnectionFires? || (e.ChildRuns? && !Watched(s))
  }

  predicate SentryCan(s: System, e: Option<ChildLoop.Event>) {
    e.Some? ==> ChildLoop.Possible(s.sentry, e.value)
  }

  predicate UmbilicalCan(s: System, e: Option<UmbilicalLoop.Event>) {
    e.Some? ==> !UmbilicalLoop.Ended(s.umbilical) && UmbilicalLoop.Possible(s.umbilical, e.value)
  }

  predicate Possible(c: Config, s: System, e: Event) {
    match e
    case Tick(to) =>
      && HeartbeatTiming.Possible(c.Link(), s.link, HeartbeatTiming.Tick(to))
      && (Watched(s) ==> TetherWatch.Possible(c.Tether(), s.watch, TetherWatch.Tick(to)))
    case Link(x) =>
      && !x.Tick? && HeartbeatTiming.Possible(c.Link(), s.link, x)
      && SentryCan(s, SentryCallback(s.link, x)) && UmbilicalCan(s, UmbilicalCallback(s.link, x))
    case Tether(x) =>
      && Watched(s) && !x.Tick? && TetherWatch.Possible(c.Tether(), s.watch, x)
      && SentryCan(s, TetherCallback(s.watch, x))
    case Sentry(x) => IsOther(s, x) && ChildLoop.Possible(s.sentry, x)
    case Umbilical(x) => (x.Accepts? || x.Cleans?) && UmbilicalCan(s, Some(x))
  }

  function SentryAfter(s: System, e: Option<ChildLoop.Event>): ChildLoop.Monitor
    requires SentryCan(s, e)
  {
    if e.Some? then ChildLoop.Next(s.sentry, e.value) else s.sentry
  }

  function UmbilicalAfter(s: System, e: Option<UmbilicalLoop.Event>): UmbilicalLoop.Loop {
    if e.Some? then UmbilicalLoop.Next(s.umbilical, e.value) else s.umbilical
  }

  function Next(c: Config, s: System, e: Event): System
    requires Possible(c, s, e)
  {
    match e
    case Tick(to) =>
      s.(link := HeartbeatTiming.Next(c.Link(), s.link, HeartbeatTiming.Tick(to)),
         watch := if Watched(s) then TetherWatch.Next(s.watch, TetherWatch.Tick(to)) else s.watch)
    case Link(x) =>
      s.(link := HeartbeatTiming.Next(c.Link(), s.link, x),
         sentry := SentryAfter(s, SentryCallback(s.link, x)),
         umbilical := UmbilicalAfter(s, UmbilicalCallback(s.link, x)))
    case Tether(x) =>
      s.(watch := TetherWatch.Next(s.watch, x), sentry := SentryAfter(s, TetherCallback(s.watch, x)))
    case Sentry(x) => s.(sentry := ChildLoop.Next(s.sentry, x))
    case Umbilical(x) => s.(umbilical := UmbilicalLoop.Next(s.umbilical, x))
  }

  /** The state after a run, if every event in it was possible. */
  function After(c: Config, activity: int, events: seq<Event>): Option<System> {
    if events == [] then Some(Start(c, activity))
    else
      match After(c, activity, events[..|events| - 1])
      case None => None
      case Some(s) => if Possible(c, s, events[|events| - 1]) then Some(Next(c, s, events[|events| - 1])) else None
  }

  /** What the clock of the connection sees of a run. */
  function LinkEvents(events: seq<Event>): seq<HeartbeatTiming.Event> {
    if events == [] then []
    else
      var rest := LinkEvents(events[..|events| - 1]);
      match events[|events| - 1]
      case Tick(to) => rest + [HeartbeatTiming.Tick(to)]
      case Link(x) => rest + [x]
      case _ => rest
  }

  // ------------------------------------------------------------------------------------------
  // The loops keep to the clocks

  predicate LinkAgrees(s: System) {
    s.link.sentry == s.sentry.link && s.link.umbilical == s.umbilical.link
  }

  /** The clock of the tether runs while the tether is watched, which it is until the child is terminated, if
      it has a timeout. */
  predicate WatchAgrees(c: Config, s: System) {
    && (Watched(s) ==> s.sentry.tether == s.watch.watch && s.watch.now == s.link.now && s.watch.aborted.None?)
    && (c.Tether().timeout > 0 && !s.sentry.termination.timer.Armed() ==> Watched(s))
    && (c.Tether().timeout == 0 ==> !Watched(s) && s.watch.aborted.None?)
  }

  /** A callback of the sentry changes its link only if it is one of the connection, and leaves the tether alone
      unless it belongs to the tether or starts the termination. */
  lemma CallbackLeaves(m: ChildLoop.Monitor, e: ChildLoop.Event)
    requires ChildLoop.Inv(m) && ChildLoop.Possible(m, e)
    ensures var n := ChildLoop.Next(m, e);
            && (!e.EchoArrives? && !e.LinkBreaks? && !e.LinkTimerFires? && !e.SentryRuns? && !e.UmbilicalRuns? ==>
                  n.link == m.link)
            && (!e.TetherTimerFires? && !e.ChildRuns? && ChildLoop.CauseOf(m, e).None? ==> n.tether == m.tether)
            && (ChildLoop.CauseOf(m, e).Some? ==> !n.tether.timer.Armed())
            && (e.ChildRuns? && !m.tether.timer.Armed() ==> n.tether == m.tether)
            && (n.termination.timer.Armed() <==> m.termination.timer.Armed() || ChildLoop.CauseOf(m, e).Some?)
  {
    ChildLoop.NextKeepsInv(m, e);
    hide Heartbeat.SentryTimer, TetherWatch.TetherTimer, Escalation.Advanced;
  }

  lemma LinkStepAgrees(c: Config, s: System, x: HeartbeatTiming.Event)
    requires LinkAgrees(s) && Possible(c, s, Link(x))
    ensures LinkAgrees(Next(c, s, Link(x)))
  {
    hide Heartbeat.SentryTimer, Heartbeat.SentryContinued, Heartbeat.UmbilicalContinued;
    hide Heartbeat.UmbilicalTimer, Heartbeat.UmbilicalRead;
  }

  lemma StepKeepsLink(c: Config, s: System, e: Event)
    requires LinkAgrees(s) && ChildLoop.Inv(s.sentry) && Possible(c, s, e)
    ensures LinkAgrees(Next(c, s, e))
  {
    match e
    case Link(x) => LinkStepAgrees(c, s, x);
    case Tether(x) =>
      if TetherCallback(s.watch, x).Some? {
        CallbackLeaves(s.sentry, TetherCallback(s.watch, x).value);
      }
      hide ChildLoop.Next;
    case Sentry(x) =>
      CallbackLeaves(s.sentry, x);
      hide ChildLoop.Next;
    case _ =>
  }

  lemma TetherStepAgrees(c: Config, s: System, x: TetherWatch.Event)
    requires WatchAgrees(c, s) && ChildLoop.Inv(s.sentry) && Possible(c, s, Tether(x))
    ensures WatchAgrees(c, Next(c, s, Tether(x)))
  {
  }

  lemma StepKeepsWatch(c: Config, s: System, e: Event)
    requires WatchAgrees(c, s) && ChildLoop.Inv(s.sentry) && Possible(c, s, e)
    ensures WatchAgrees(c, Next(c, s, e))
  {
    match e
    case Tether(x) => TetherStepAgrees(c, s, x);
    case Link(x) =>
      if SentryCallback(s.link, x).Some? {
        CallbackLeaves(s.sentry, SentryCallback(s.link, x).value);
      }
      hide ChildLoop.Next, ChildLoop.CauseOf, HeartbeatTiming.Possible;
      ClockStands(c, s, x);
      hide HeartbeatTiming.Next;
    case Sentry(x) =>
      CallbackLeaves(s.sentry, x);
      hide ChildLoop.Next, ChildLoop.CauseOf;
    case _ =>
  }

  lemma ClockStands(c: Config, s: System, x: HeartbeatTiming.Event)
    requires !x.Tick? && HeartbeatTiming.Possible(c.Link(), s.link, x)
    ensures HeartbeatTiming.Next(c.Link(), s.link, x).now == s.link.now
  {
    hide Heartbeat.SentryTimer, Heartbeat.UmbilicalTimer, Heartbeat.UmbilicalRead;
  }

  // ------------------------------------------------------------------------------------------
  // What every step keeps

  /** Why the child is being terminated. */
  predicate Explained(c: Config, s: System) {
    && (s.sentry.parentSlot ==> c.settings.hasParent)
    && match s.sentry.termination.plan
       case None => true
       case Some(p) =>
         if p.cause.Abort? then s.watch.aborted.Some? else ChildLoop.Unsupervised(c.settings, s.sentry)
  }

  lemma CallbackExplains(c: ChildLoop.Settings, m: ChildLoop.Monitor, e: ChildLoop.Event)
    requires ChildLoop.Inv(m) && ChildLoop.Possible(m, e) && (m.parentSlot ==> c.hasParent)
    ensures var n := ChildLoop.Next(m, e);
            && (n.parentSlot ==> c.hasParent)
            && (ChildLoop.Unsupervised(c, m) ==> ChildLoop.Unsupervised(c, n))
            && (n.termination.plan.Some? ==>
                  || (m.termination.plan.Some? && n.termination.plan.value.cause == m.termination.plan.value.cause)
                  || (n.termination.plan.value.cause.Terminate? && ChildLoop.Unsupervised(c, n))
                  || (n.termination.plan.value.cause.Abort? && ChildLoop.CauseOf(m, e) == Some(Escalation.Abort)))
  {
    ChildLoop.StepProjects(m, e);
    ChildLoop.StepShows(c, m, e);
    hide ChildLoop.Next, ChildLoop.CauseOf, ChildLoop.Unsupervised;
  }

  /** Once supervision has ended the child is being terminated. */
  predicate EndsWithLink(c: Config, s: System) {
    ChildLoop.Unsupervised(c.settings, s.sentry) ==> s.sentry.termination.timer.Armed()
  }

  lemma StepKeepsEnding(c: Config, s: System, e: Event)
    requires EndsWithLink(c, s) && Explained(c, s) && ChildLoop.Inv(s.sentry) && Possible(c, s, e)
    ensures EndsWithLink(c, Next(c, s, e))
  {
    var callback := match e
      case Tether(x) => TetherCallback(s.watch, x)
      case Link(x) => SentryCallback(s.link, x)
      case Sentry(x) => Some(x)
      case _ => None;
    if callback.Some? {
      ChildLoop.StepShows(c.settings, s.sentry, callback.value);
      ChildLoop.NextKeepsInv(s.sentry, callback.value);
    }
    hide ChildLoop.Next, ChildLoop.CauseOf, ChildLoop.Unsupervised, ChildLoop.Inv;
    hide HeartbeatTiming.Next, HeartbeatTiming.Possible, TetherWatch.Next;
  }

  lemma AbortIsRecorded(c: Config, s: System, x: TetherWatch.Event)
    requires WatchAgrees(c, s) && Possible(c, s, Tether(x)) && TetherCallback(s.watch, x).Some?
    requires ChildLoop.CauseOf(s.sentry, TetherCallback(s.watch, x).value) == Some(Escalation.Abort)
    ensures TetherWatch.Next(s.watch, x).aborted.Some?
  {
    hide Timer.Lapped;
  }

  lemma StepKeepsExplained(c: Config, s: System, e: Event)
    requires Explained(c, s) && WatchAgrees(c, s) && ChildLoop.Inv(s.sentry) && Possible(c, s, e)
    ensures Explained(c, Next(c, s, e))
  {
    match e
    case Tether(x) =>
      if TetherCallback(s.watch, x).Some? {
        var y := TetherCallback(s.watch, x).value;
        CallbackExplains(c.settings, s.sentry, y);
        if ChildLoop.CauseOf(s.sentry, y) == Some(Escalation.Abort) {
          AbortIsRecorded(c, s, x);
        }
        hide ChildLoop.Next, ChildLoop.CauseOf, ChildLoop.Unsupervised;
      }
    case Link(x) =>
      if SentryCallback(s.link, x).Some? {
        CallbackExplains(c.settings, s.sentry, SentryCallback(s.link, x).value);
      }
      hide ChildLoop.Next, ChildLoop.Unsupervised, HeartbeatTiming.Next, HeartbeatTiming.Possible;
    case Sentry(x) =>
      CallbackExplains(c.settings, s.sentry, x);
      hide ChildLoop.Next, ChildLoop.Unsupervised;
    case _ =>
  }

  predicate TetherOk(c: Config, s: System) {
    c.Tether().timeout > 0 ==> TetherWatch.Inv(c.Tether(), s.watch)
  }

  lemma StepKeepsTether(c: Config, s: System, e: Event)
    requires TetherOk(c, s) && Possible(c, s, e)
    ensures TetherOk(c, Next(c, s, e))
  {
    hide TetherWatch.Inv, TetherWatch.Next, HeartbeatTiming.Next, HeartbeatTiming.Possible, ChildLoop.Next;
    if c.Tether().timeout > 0 {
      match e
      case Tick(to) =>
        if Watched(s) {
          TetherWatch.NextKeepsInv(c.Tether(), s.watch, TetherWatch.Tick(to));
        }
      case Tether(x) => TetherWatch.NextKeepsInv(c.Tether(), s.watch, x);
      case _ =>
    }
  }

  predicate UmbilicalOk(s: System) {
    UmbilicalLoop.Inv(s.umbilical) && !s.umbilical.link.closed && !s.umbilical.failed
  }

  lemma StepKeepsUmbilical(c: Config, s: System, e: Event)
    requires UmbilicalOk(s) && Possible(c, s, e)
    ensures UmbilicalOk(Next(c, s, e))
  {
    hide HeartbeatTiming.Next, HeartbeatTiming.Possible, ChildLoop.Next;
  }

  lemma StepKeepsSentry(c: Config, s: System, e: Event)
    requires ChildLoop.Inv(s.sentry) && Possible(c, s, e)
    ensures ChildLoop.Inv(Next(c, s, e).sentry)
  {
    match e
    case Tether(x) =>
      if TetherCallback(s.watch, x).Some? {
        ChildLoop.NextKeepsInv(s.sentry, TetherCallback(s.watch, x).value);
      }
    case Link(x) =>
      if SentryCallback(s.link, x).Some? {
        ChildLoop.NextKeepsInv(s.sentry, SentryCallback(s.link, x).value);
      }
    case Sentry(x) => ChildLoop.NextKeepsInv(s.sentry, x);
    case _ =>
    hide ChildLoop.Inv, ChildLoop.Next, HeartbeatTiming.Next, HeartbeatTiming.Possible, TetherWatch.Next;
  }

  predicate Inv(c: Config, s: System) {
    && LinkAgrees(s) && WatchAgrees(c, s) && Explained(c, s) && TetherOk(c, s) && UmbilicalOk(s)
    && ChildLoop.Inv(s.sentry) && EndsWithLink(c, s)
  }

  lemma NextKeepsInv(c: Config, s: System, e: Event)
    requires Inv(c, s) && Possible(c, s, e)
    ensures Inv(c, Next(c, s, e))
  {
    hide LinkAgrees, WatchAgrees, Explained, TetherOk, UmbilicalOk, EndsWithLink, ChildLoop.Inv, Next, Possible;
    StepKeepsLink(c, s, e);
    StepKeepsWatch(c, s, e);
    StepKeepsExplained(c, s, e);
    StepKeepsTether(c, s, e);
    StepKeepsUmbilical(c, s, e);
    StepKeepsSentry(c, s, e);
    StepKeepsEnding(c, s, e);
  }

  /** The two loops keep to the clocks: in every run the two ends of the connection, and the watch of the tether
      while it is watched, are what the timed machines say they are, and what the connection sees of the
      run is a run of HeartbeatTiming. */
  lemma {:induction false} LoopsKeepTime(c: Config, activity: int, events: seq<Event>)
    requires After(c, activity, events).Some? && c.settings.signal > 0 && activity <= 0
    ensures Inv(c, After(c, activity, events).value)
    ensures HeartbeatTiming.After(c.Link(), LinkEvents(events)) == Some(After(c, activity, events).value.link)
  {
    if events == [] {
      StartKeepsInv(c, activity);
    } else {
      var prefix, last := events[..|events| - 1], events[|events| - 1];
      LoopsKeepTime(c, activity, prefix);
      NextKeepsInv(c, After(c, activity, prefix).value, last);
      hide Inv, HeartbeatTiming.Next, HeartbeatTiming.Possible;
      var seen := LinkEvents(events);
      assert last.Link? || last.Tick? ==> seen[..|seen| - 1] == LinkEvents(prefix);
    }
  }

  lemma StartKeepsInv(c: Config, activity: int)
    requires c.settings.signal > 0 && activity <= 0
    ensures Inv(c, Start(c, activity))
  {
    TetherWatch.PeriodIsHalf(c.Tether());
  }

  lemma LinkIsReady(c: Config, s: System, x: HeartbeatTiming.Event)
    requires LinkAgrees(s) && HeartbeatTiming.OneMessage(s.link) && UmbilicalOk(s)
    requires HeartbeatTiming.Possible(c.Link(), s.link, x) && !x.Tick?
    requires x.UmbilicalRuns? ==> !s.sentry.umbilicalLatchDisabled
    requires x.EchoServed? ==> !UmbilicalLoop.Completed(s.umbilical)
    ensures Possible(c, s, Link(x))
  {
    hide HeartbeatTiming.InTime;
  }

  /** Every callback of the connection that its clock lets happen is one that the loops can take; but the
      sentry no longer listens to an umbilical process that has ended, and a loop that has completed serves
      no echo. */
  lemma LinkCallbackIsReady(c: Config, activity: int, events: seq<Event>, x: HeartbeatTiming.Event)
    requires After(c, activity, events).Some? && c.settings.signal > 0 && c.settings.umbilical > 0 && activity <= 0
    requires HeartbeatTiming.Possible(c.Link(), After(c, activity, events).value.link, x) && !x.Tick?
    requires x.UmbilicalRuns? ==> !After(c, activity, events).value.sentry.umbilicalLatchDisabled
    requires x.EchoServed? ==> !UmbilicalLoop.Completed(After(c, activity, events).value.umbilical)
    ensures Possible(c, After(c, activity, events).value, Link(x))
  {
    LoopsKeepTime(c, activity, events);
    HeartbeatTiming.OneMessageUnderWay(c.Link(), LinkEvents(events));
    LinkIsReady(c, After(c, activity, events).value, x);
  }

  // ------------------------------------------------------------------------------------------
  // What supervision promises

  /** While parent and child play their part nobody is hurt. With delays that are small enough, in every run in
      which neither the sentry nor the umbilical process hangs, the sentry is continued at most once for each
      ping, and the parent has not ended: the two processes keep their connection, and the child is not
      terminated, or it is for its own silence, by SIGABRT first. That silence has lasted for half the tether
      timeout at least, and for exactly the whole of it since it was last excused if the timer is on time. */
  lemma HealthyChildIsLeftAlone(c: Config, activity: int, events: seq<Event>)
    requires After(c, activity, events).Some? && c.settings.signal > 0 && c.settings.umbilical > 0 && activity <= 0
    requires 4 * (2 * c.delay + c.lateness) < c.settings.umbilical * NANOSECONDS
    requires HeartbeatTiming.Healthy(LinkEvents(events)) && After(c, activity, events).value.link.tally.most <= 1
    requires c.settings.hasParent ==> After(c, activity, events).value.sentry.parentSlot
    ensures var s := After(c, activity, events).value;
            s.sentry.link.open && s.umbilical.link.open &&
            match s.sentry.termination.plan
            case None => !s.sentry.termination.timer.Armed()
            case Some(p) =>
              var timeout := c.Tether().timeout * NANOSECONDS;
              && p.cause.Abort? && timeout > 0 && s.watch.aborted.Some?
              && timeout <= 2 * (s.watch.aborted.value - s.watch.activity)
              && (c.lateness == 0 ==> s.watch.aborted.value - s.watch.excused == timeout)
  {
    LoopsKeepTime(c, activity, events);
    HeartbeatTiming.OneContinuationIsHarmless(c.Link(), LinkEvents(events));
    HeartbeatTiming.FastEnoughIsQuiet(c.Link(), LinkEvents(events));
    TetherWatch.PeriodIsHalf(c.Tether());
    hide After, LinkEvents, HeartbeatTiming.After, HeartbeatTiming.Healthy, UmbilicalOk;
  }

  /** A child that stays silent is terminated: until the termination has begun, no more than the tether timeout
      has passed since the silence of the child was last excused, plus the lateness of two firings, or of
      one if they are less than a cycle late. */
  lemma SilentChildIsTerminated(c: Config, activity: int, events: seq<Event>)
    requires After(c, activity, events).Some? && c.settings.signal > 0 && activity <= 0 && c.Tether().timeout > 0
    ensures var s := After(c, activity, events).value;
            var late := if c.lateness < c.Tether().Period() then c.lateness else 2 * c.lateness;
            !s.sentry.termination.timer.Armed() ==>
              s.link.now - s.watch.excused <= c.settings.tether * NANOSECONDS + late
  {
    LoopsKeepTime(c, activity, events);
    TetherWatch.PeriodIsHalf(c.Tether());
    hide After, LinkEvents, HeartbeatTiming.After, UmbilicalOk, Explained, LinkAgrees;
  }

  /** When the umbilical process falls silent, the child is terminated: once the umbilical timeout has passed
      since the umbilical process was last excused, plus the lateness of two firings, a sentry that still runs
      and has not heard the echo has closed the connection and started the termination. */
  lemma SilentUmbilicalEndsChild(c: Config, activity: int, events: seq<Event>)
    requires After(c, activity, events).Some? && c.settings.signal > 0 && c.settings.umbilical > 0 && activity <= 0
    requires !After(c, activity, events).value.link.sentryHung
    ensures var s := After(c, activity, events).value;
            (s.sentry.link.open ==> Heartbeat.Waiting(s.sentry.link)) &&
            c.settings.umbilical * NANOSECONDS + 2 * c.lateness < s.link.now - s.link.excused ==>
              !s.sentry.link.open && s.sentry.termination.timer.Armed()
  {
    LoopsKeepTime(c, activity, events);
    HeartbeatTiming.SilentUmbilicalIsDetected(c.Link(), LinkEvents(events));
  }

  /** How long the umbilical process may go without a ping. */
  predicate PingIsOverdue(c: Config, s: System) {
    s.link.lastRead.Some? &&
    match s.link.foundStopped
    case None =>
      3 * (c.settings.umbilical * NANOSECONDS) < 4 * (s.link.now - s.link.lastRead.value - 2 * c.lateness)
    case Some(found) => c.settings.umbilical * NANOSECONDS < s.link.now - found - 2 * c.lateness
  }

  /** When the sentry falls silent, sentry and child are killed: three quarters of the umbilical timeout after the
      last ping, or a whole timeout after the sentry was last found stopped, plus two latenesses, an umbilical
      process that still runs has closed the connection and the pid server; its loop is over as soon as the
      last client has left, and then the process groups of the child and of the sentry are killed. */
  lemma SilentSentryEndsBoth(c: Config, activity: int, events: seq<Event>)
    requires After(c, activity, events).Some? && c.settings.signal > 0 && c.settings.umbilical > 0 && activity <= 0
    requires !After(c, activity, events).value.link.umbilicalHung
    requires PingIsOverdue(c, After(c, activity, events).value)
    ensures var s := After(c, activity, events).value;
            && !s.umbilical.link.open && !s.umbilical.serverSlot
            && (s.umbilical.clients == [] ==>
                  && UmbilicalLoop.Completed(s.umbilical)
                  && UmbilicalLoop.AfterLoop(s.umbilical) == UmbilicalLoop.Kills(true, true))
  {
    LoopsKeepTime(c, activity, events);
    HeartbeatTiming.SilentSentryIsDetected(c.Link(), LinkEvents(events));
  }
}
